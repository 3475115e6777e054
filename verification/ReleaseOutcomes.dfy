/**
 * What the scripts' exits and the recorded statuses stand for: an exit 0 and a PROMOTED line mean a merge, a verdict
 * means what the verifier's own receipt said, and whoever has started can go on.
 */
module ReleaseOutcomes {
  import opened Values
  import opened Release
  import opened ReleaseSafety

  // ------------------------------------------------------------------ PROMOTED means merged

  ghost predicate Merged(s: State, run: RunId, candidate: Commit) {
    exists i :: 0 <= i < |s.merges| && s.merges[i].run == run && s.merges[i].candidate == candidate
  }

  ghost predicate RunMerged(s: State, run: RunId) { exists i :: 0 <= i < |s.merges| && s.merges[i].run == run }

  /** On the way to an exit 0, or there. */
  predicate Succeeds(at: PromoterAt) { at == AtRecord(PROMOTED) || at == AtRelease(0) || at == Left(0) }

  ghost predicate PromoterTold(s: State, p: Promoter) {
    && p.run in s.runs
    && (Succeeds(p.at) ==> p.receipt.Full? && Merged(s, p.run, p.receipt.candidate))
    && (p.at == AtRelease(0) || p.at == Left(0) ==> PROMOTED in History(s, p.run))
  }

  ghost predicate Told(s: State) {
    && (forall run :: PROMOTED in History(s, run) ==> RunMerged(s, run))
    && (forall pid :: pid in s.promoters ==> PromoterTold(s, s.promoters[pid]))
  }

  /** Merges and statuses of the past stay, but for those of a run that is only being created. */
  ghost predicate Later(s: State, t: State) {
    && s.runs.Keys <= t.runs.Keys && s.merges <= t.merges
    && forall run :: run in s.runs ==> History(s, run) <= History(t, run)
  }

  lemma MergedStays(s: State, t: State, run: RunId, candidate: Commit)
    requires s.merges <= t.merges
    ensures Merged(s, run, candidate) ==> Merged(t, run, candidate)
    ensures RunMerged(s, run) ==> RunMerged(t, run)
  {
    if i :| 0 <= i < |s.merges| && s.merges[i].run == run && s.merges[i].candidate == candidate {
      assert t.merges[i] == s.merges[i];
    }
    if i :| 0 <= i < |s.merges| && s.merges[i].run == run { assert t.merges[i] == s.merges[i]; }
  }

  lemma ToldStays(s: State, t: State, p: Promoter)
    requires PromoterTold(s, p) && Later(s, t)
    ensures PromoterTold(t, p)
  {
    if Succeeds(p.at) { MergedStays(s, t, p.run, p.receipt.candidate); }
    if PROMOTED in History(s, p.run) {
      var i :| 0 <= i < |History(s, p.run)| && History(s, p.run)[i] == PROMOTED;
      assert History(t, p.run)[i] == PROMOTED;
    }
  }

  lemma EnvironmentTold(s: State, a: EnvironmentAction)
    requires Told(s) && EnvironmentEnabled(s, a)
    ensures Told(EnvironmentStep(s, a))
  {
    var t := EnvironmentStep(s, a);
    assert Later(s, t);
    forall run | PROMOTED in History(t, run) ensures RunMerged(t, run) { MergedStays(s, t, run, 0); }
    forall pid | pid in t.promoters ensures PromoterTold(t, t.promoters[pid]) {
      if pid in s.promoters && t.promoters[pid] == s.promoters[pid] { ToldStays(s, t, s.promoters[pid]); }
    }
  }

  lemma VerifierTold(s: State, pid: Pid, a: VerifierAction)
    requires Told(s) && VerifierEnabled(s, pid, a)
    ensures Told(VerifierStep(s, pid, a))
  {
    var t := VerifierStep(s, pid, a);
    assert Later(s, t);
    forall run | PROMOTED in History(t, run) ensures RunMerged(t, run) { MergedStays(s, t, run, 0); }
    forall q | q in t.promoters ensures PromoterTold(t, t.promoters[q]) { ToldStays(s, t, s.promoters[q]); }
  }

  lemma SupervisorTold(s: State, a: SupervisorAction)
    requires Told(s) && SupervisorEnabled(s, a)
    ensures Told(SupervisorStep(s, a))
  {
    var t := SupervisorStep(s, a);
    assert Later(s, t);
    forall run | PROMOTED in History(t, run) ensures RunMerged(t, run) {
      assert PROMOTED in History(s, run);
      MergedStays(s, t, run, 0);
    }
    forall q | q in t.promoters ensures PromoterTold(t, t.promoters[q]) {
      if q in s.promoters && t.promoters[q] == s.promoters[q] { ToldStays(s, t, s.promoters[q]); }
    }
  }

  /** The promoter that moves: its merge, its record, its exit. */
  lemma MoverTold(s: State, pid: Pid, a: PromoterAction)
    requires Told(s) && PromoterEnabled(s, pid, a) && !a.KillPromoter?
    ensures PromoterTold(PromoterStep(s, pid, a), PromoterStep(s, pid, a).promoters[pid])
  {
    var t, p := PromoterStep(s, pid, a), s.promoters[pid];
    assert PromoterTold(s, p);
    if Merges(s, p, a) {
      assert t.merges[|s.merges|].run == p.run && t.merges[|s.merges|].candidate == p.receipt.candidate;
    } else if Succeeds(p.at) {
      MergedStays(s, t, p.run, p.receipt.candidate);
    }
  }

  lemma PromoterKeepsTold(s: State, pid: Pid, a: PromoterAction)
    requires Told(s) && PromoterEnabled(s, pid, a)
    ensures Told(PromoterStep(s, pid, a))
  {
    var t, p := PromoterStep(s, pid, a), s.promoters[pid];
    assert PromoterTold(s, p) && Later(s, t);
    forall run | PROMOTED in History(t, run) ensures RunMerged(t, run) {
      MergedStays(s, t, run, 0);
      if PROMOTED !in History(s, run) { MergedStays(s, t, run, p.receipt.candidate); }
    }
    forall q | q in t.promoters ensures PromoterTold(t, t.promoters[q]) {
      if q == pid { MoverTold(s, pid, a); } else { ToldStays(s, t, s.promoters[q]); }
    }
  }

  lemma StepTold(s: State, a: Action)
    requires Told(s) && Enabled(s, a)
    ensures Told(Do(s, a))
  {
    match a
    case Environment(e) => EnvironmentTold(s, e);
    case Verify(pid, v) => VerifierTold(s, pid, v);
    case Promote(pid, p) => PromoterKeepsTold(s, pid, p);
    case Supervision(x) => SupervisorTold(s, x);
  }

  lemma {:induction false} AlwaysTold(s: State, actions: seq<Action>)
    requires Told(s) && Runs(s, actions)
    ensures Told(After(s, actions))
    decreases |actions|
  {
    if actions != [] {
      StepTold(s, actions[0]);
      AlwaysTold(Do(s, actions[0]), actions[1..]);
    }
  }

  /**
   * In every execution: a run with a PROMOTED line has been merged, and a promoter that exits 0 has merged the commit
   * of the receipt it read and written that line.
   */
  lemma SuccessMeansMerged(actions: seq<Action>, run: RunId, pid: Pid)
    requires Runs(START, actions)
    ensures var s := After(START, actions);
            && (PROMOTED in History(s, run) ==> exists i :: 0 <= i < |s.merges| && s.merges[i].run == run)
            && (pid in s.promoters && s.promoters[pid].at == Left(0) ==>
                  var p := s.promoters[pid];
                  p.receipt.Full? && PROMOTED in History(s, p.run)
                  && exists i :: 0 <= i < |s.merges| && s.merges[i].run == p.run && s.merges[i].candidate == p.receipt.candidate)
  {
    AlwaysTold(START, actions);
    var s := After(START, actions);
    if PROMOTED in History(s, run) { assert RunMerged(s, run); }
    if pid in s.promoters && s.promoters[pid].at == Left(0) { assert PromoterTold(s, s.promoters[pid]); }
  }

  // ------------------------------------------------------------------ exit codes of the verifier

  /** The receipt on file is whole and says the result that the verifier reads from the shared file. */
  predicate OwnReceipt(s: State, v: Verifier) {
    v.run in s.receipts && s.receipts[v.run].Full? && s.receipts[v.run].result == v.result
  }

  /**
   * A verifier ends with 0 if its receipt stands and says PASS, with 1 if it stands and says something else, and with
   * 3 otherwise; then, as when there is no branch or no suite to begin with, an ERROR receipt replaces what was there.
   */
  lemma ExitIs(s: State, pid: Pid, a: VerifierAction)
    requires Enabled(s, Verify(pid, a)) && !a.KillVerifier?
    ensures var t, v := Do(s, Verify(pid, a)), s.verifiers[pid];
            var at := t.verifiers[pid].at;
            && (at == Exited(0) <==> a.Validate? && OwnReceipt(s, v) && v.result == PASS)
            && (at == Exited(1) <==> a.Validate? && OwnReceipt(s, v) && v.result != PASS)
            && (at == Exited(3) <==>
                  || (a.Validate? && !OwnReceipt(s, v))
                  || (a.Clone? && (v.run !in s.branches || v.json.idea !in s.suites)))
            && (at.Exited? ==> at.code in {0, 1, 3})
            && (at == Exited(3) ==> t.receipts == s.receipts[v.run := Failed(v.run)])
            && (at == Exited(0) || at == Exited(1) ==> t.receipts == s.receipts)
  {}

  /** The supervisor records VERIFIED for exit 0, REJECTED for exit 1 or a killed child, and ERRORED for any other. */
  lemma VerdictIsExit(s: State)
    requires Enabled(s, Supervision(RecordVerdict))
    ensures var t, run, child := Do(s, Supervision(RecordVerdict)), s.supervisor.run, s.supervisor.child;
            && |History(t, run)| == |History(s, run)| + 1 && History(s, run) <= History(t, run)
            && (forall other :: other != run ==> History(t, other) == History(s, other))
            && var x := History(t, run)[|History(s, run)|];
               && (x == VERIFIED <==> child in s.verifiers && s.verifiers[child].at == Exited(0))
               && (x == REJECTED <==> child !in s.verifiers || s.verifiers[child].at == Exited(1))
               && (x == ERRORED <==> child in s.verifiers && s.verifiers[child].at.Exited? && s.verifiers[child].at.code > 1)
               && t.supervisor == (if x == VERIFIED then Approved(run) else Idle)
  {}

  // ------------------------------------------------------------------ nobody is stuck

  /** Builders, writers and other committers are never held up. */
  lemma OthersMayAct(s: State, run: RunId, idea: IdeaId, suite: Option<Content>, file: Option<Content>)
    ensures Enabled(s, Environment(CommitOnMain)) && Enabled(s, Environment(WriteSuite(idea, suite)))
    ensures run in s.runs ==> Enabled(s, Environment(WriteSpec(run, file))) && Enabled(s, Environment(MoveBranch(run, None)))
    ensures run in s.branches ==> Enabled(s, Environment(BuilderCommit(run)))
    ensures Enabled(s, Supervision(KillSupervisor))
  {}

  /** A promoter that has not left can take its next step, and so can a verifier that has not exited. */
  lemma ProcessesMayAct(s: State, pid: Pid)
    ensures pid in s.promoters && !s.promoters[pid].at.Left? ==>
              exists a: PromoterAction :: !a.KillPromoter? && Enabled(s, Promote(pid, a))
    ensures pid in s.verifiers && !s.verifiers[pid].at.Exited? ==>
              exists a: VerifierAction :: !a.KillVerifier? && Enabled(s, Verify(pid, a))
  {
    if pid in s.promoters && !s.promoters[pid].at.Left? {
      var a := match s.promoters[pid].at
               case AtLock => TakeLock
               case AtReceiptRead => ReadReceipt
               case AtHead => CheckHead
               case AtAncestry => CheckAncestry
               case AtSpec => CheckSpec
               case AtSuite => CheckSuite
               case AtMerge => MergeExact(false)
               case AtRecord(_) => RecordStatus
               case _ => ReleaseLock;
      assert !a.KillPromoter? && Enabled(s, Promote(pid, a));
    }
    if pid in s.verifiers && !s.verifiers[pid].at.Exited? {
      var a := match s.verifiers[pid].at
               case AtClone => Clone
               case AtDigest => DigestSuite
               case AtCopy => CopySuite
               case AtJudge => Judge(s.verifiers[pid].checks)
               case AtReceipt => WriteReceipt
               case AtTmp => WriteTmp
               case AtRead => ReadTmp
               case AtClear => ClearTmp
               case _ => Validate;
      assert !a.KillVerifier? && Enabled(s, Verify(pid, a));
    }
  }
}
