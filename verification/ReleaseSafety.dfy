/**
 * What every run of the release protocol keeps: whatever builders, verifiers, promoters, file
 * writers and crashes do and in whatever order, only verified commits are merged, main only
 * moves forward, and a promotion lock has one holder.
 */
module ReleaseSafety {
  import opened Values
  import opened Release

  // ------------------------------------------------------------------ commits

  lemma {:induction false} AncestorStable(dag: Dag, dag': Dag, a: Commit, b: Commit)
    requires dag <= dag' && b < |dag|
    ensures Ancestor(dag', a, b) <==> Ancestor(dag, a, b)
    decreases b
  {
    if a != b {
      assert dag'[b] == dag[b];
      forall p | p in dag[b] && p < b ensures Ancestor(dag', a, p) <==> Ancestor(dag, a, p) {
        AncestorStable(dag, dag', a, p);
      }
    }
  }

  lemma {:induction false} AncestorTransitive(dag: Dag, a: Commit, b: Commit, c: Commit)
    requires Ancestor(dag, a, b) && Ancestor(dag, b, c)
    ensures Ancestor(dag, a, c)
    decreases c
  {
    if b != c {
      var p :| p in dag[c] && p < c && Ancestor(dag, b, p);
      AncestorTransitive(dag, a, b, p);
    }
  }

  // ------------------------------------------------------------------ what only grows

  ghost predicate Extends(s: State, t: State) {
    && s.dag <= t.dag
    && (forall r :: r in s.runs ==> r in t.runs && t.runs[r] == s.runs[r])
    && s.verifications <= t.verifications
    && s.merges <= t.merges
  }

  ghost predicate DagOk(s: State) {
    && DagValid(s.dag) && s.head < |s.dag|
    && (forall r :: r in s.branches ==> s.branches[r] < |s.dag|)
    && (forall r :: r in s.runs ==> s.runs[r].base < |s.dag|)
  }

  lemma EnvironmentDag(s: State, e: EnvironmentAction)
    requires DagOk(s) && EnvironmentEnabled(s, e)
    ensures DagOk(EnvironmentStep(s, e)) && Extends(s, EnvironmentStep(s, e))
  {}

  lemma PromoterDag(s: State, pid: Pid, a: PromoterAction)
    requires DagOk(s) && PromoterEnabled(s, pid, a)
    requires Advances(s, s.promoters[pid], a) ==> s.promoters[pid].receipt.candidate < |s.dag|
    ensures DagOk(PromoterStep(s, pid, a)) && Extends(s, PromoterStep(s, pid, a))
  {}

  ghost predicate CandidatesStored(s: State) {
    && (forall run :: run in s.receipts && s.receipts[run].Full? ==> s.receipts[run].candidate < |s.dag|)
    && (forall pid :: pid in s.promoters && s.promoters[pid].receipt.Full? ==> s.promoters[pid].receipt.candidate < |s.dag|)
    && (forall pid :: pid in s.verifiers ==> s.verifiers[pid].candidate < |s.dag|)
  }

  lemma StepDag(s: State, a: Action)
    requires DagOk(s) && CandidatesStored(s) && Enabled(s, a)
    ensures DagOk(Do(s, a)) && Extends(s, Do(s, a))
  {
    match a
    case Environment(e) => EnvironmentDag(s, e);
    case Promote(pid, m) => PromoterDag(s, pid, m);
    case _ =>
  }

  lemma EnvironmentCandidates(s: State, e: EnvironmentAction)
    requires DagOk(s) && CandidatesStored(s) && EnvironmentEnabled(s, e)
    ensures CandidatesStored(EnvironmentStep(s, e))
  {}

  lemma SupervisionCandidates(s: State, x: SupervisorAction)
    requires DagOk(s) && CandidatesStored(s) && SupervisorEnabled(s, x)
    ensures CandidatesStored(SupervisorStep(s, x))
  {}

  lemma VerifierCandidates(s: State, pid: Pid, a: VerifierAction)
    requires DagOk(s) && CandidatesStored(s) && VerifierEnabled(s, pid, a)
    ensures CandidatesStored(VerifierStep(s, pid, a))
  {
    assert MovedVerifier(s, s.verifiers[pid], a).candidate < |s.dag|;
  }

  /** A promoter keeps the receipt it has, or reads the one in place. */
  lemma MovedReceipt(s: State, p: Promoter, a: PromoterAction)
    requires p.at.AtRelease? || !a.ReleaseLock?
    requires p.at.AtRecord? || !a.RecordStatus?
    ensures var r := MovedPromoter(s, p, a).receipt;
            r == p.receipt || (p.run in s.receipts && r == s.receipts[p.run])
  {}

  lemma PromoterCandidates(s: State, pid: Pid, a: PromoterAction)
    requires CandidatesStored(s) && PromoterEnabled(s, pid, a)
    ensures CandidatesStored(PromoterStep(s, pid, a))
  {
    MovedReceipt(s, s.promoters[pid], a);
    var p := MovedPromoter(s, s.promoters[pid], a);
    assert p.receipt.Full? ==> p.receipt.candidate < |s.dag|;
    MovedCandidates(s, PromoterStep(s, pid, a), pid, p);
  }

  /** One promoter has moved or gone; all else that holds candidates is as it was. */
  lemma MovedCandidates(s: State, t: State, pid: Pid, p: Promoter)
    requires CandidatesStored(s) && |s.dag| <= |t.dag| && (p.receipt.Full? ==> p.receipt.candidate < |s.dag|)
    requires t.receipts == s.receipts && t.verifiers == s.verifiers && t.branches == s.branches
    requires t.promoters == s.promoters - {pid} || t.promoters == s.promoters[pid := p]
    ensures CandidatesStored(t)
  {}

  lemma StepCandidates(s: State, a: Action)
    requires DagOk(s) && CandidatesStored(s) && Enabled(s, a)
    ensures CandidatesStored(Do(s, a))
  {
    match a
    case Environment(e) => EnvironmentCandidates(s, e);
    case Verify(pid, v) => VerifierCandidates(s, pid, v);
    case Promote(pid, m) => PromoterCandidates(s, pid, m);
    case Supervision(x) => SupervisionCandidates(s, x);
  }

  /** main only moves to descendants, and only a promoter's merge or a direct commit moves it. */
  lemma HeadMoves(s: State, a: Action)
    requires DagOk(s) && Enabled(s, a)
    ensures Ancestor(Do(s, a).dag, s.head, Do(s, a).head)
    ensures Do(s, a).head != s.head ==>
              a == Environment(CommitOnMain) || (a.Promote? && Merges(s, s.promoters[a.pid], a.move))
  {
    var t := Do(s, a);
    if t.head != s.head {
      assert s.head in t.dag[t.head];
      assert Ancestor(t.dag, s.head, s.head);
    }
  }

  // ------------------------------------------------------------------ the verdict on a candidate

  predicate IsWeb(artifactType: string) { artifactType in {"web", "static-site", "webapp"} }

  /** The acceptance suite, the shape, the sources and, where they are called for, the candidate's own tests. */
  predicate ChecksHold(artifactType: string, c: Checks) {
    c.acceptanceExit == 0 && c.shapeOk && c.sources >= 1 && (IsWeb(artifactType) || c.ownExit == Some(0))
  }

  /** Something was run, or looked for, and did not hold. */
  predicate ChecksFail(artifactType: string, c: Checks) {
    || c.acceptanceExit != 0 || !c.shapeOk || c.sources == 0
    || (!IsWeb(artifactType) && c.ownExit.Some? && c.ownExit.value != 0)
  }

  /** What the checks of a candidate come to: only a web artifact may go without tests of its own. */
  lemma VerdictIs(artifactType: string, c: Checks)
    ensures var r := Verdict(GatesOf(artifactType, c));
            && (r == FAIL <==> ChecksFail(artifactType, c))
            && (r == ERROR <==> !ChecksFail(artifactType, c) && !IsWeb(artifactType) && c.ownExit.None?)
            && (r == PASS <==> ChecksHold(artifactType, c))
  {
    var l := Release.Listed(GatesOf(artifactType, c));
    assert l[1] in l && l[2] in l && l[3] in l && l[4] in l;
  }

  // ------------------------------------------------------------------ receipts

  /** A verification that the receipt attests: same run, commit, suite digest, and gates computed from its checks. */
  ghost predicate Backs(v: Verification, r: Receipt) {
    && r.Full? && v.run == r.run && v.candidate == r.candidate && v.digest == r.acceptance
    && r.gates == GatesOf(v.artifactType, v.checks) && r.result == Verdict(r.gates)
  }

  ghost predicate ReceiptSound(s: State, r: Receipt) {
    && r.Full? && r.run in s.runs && r.candidate < |s.dag|
    && r.base == s.runs[r.run].base && r.spec == s.runs[r.run].spec
    && exists v :: v in s.verifications && v.artifactType == s.runs[r.run].artifactType && Backs(v, r)
  }

  ghost predicate ReceiptsOk(s: State) {
    forall run :: run in s.receipts ==>
      (s.receipts[run].run == run && (s.receipts[run].Full? ==> ReceiptSound(s, s.receipts[run])))
  }

  ghost predicate VerifiersOk(s: State) {
    forall pid :: pid in s.verifiers ==>
      (s.verifiers[pid].run in s.runs && s.verifiers[pid].json == s.runs[s.verifiers[pid].run])
  }

  lemma SoundStable(s: State, t: State, r: Receipt)
    requires ReceiptSound(s, r) && Extends(s, t)
    ensures ReceiptSound(t, r)
  {
    var v :| v in s.verifications && v.artifactType == s.runs[r.run].artifactType && Backs(v, r);
    assert v in t.verifications;
  }

  lemma EnvironmentVerifiers(s: State, e: EnvironmentAction)
    requires VerifiersOk(s) && EnvironmentEnabled(s, e)
    ensures VerifiersOk(EnvironmentStep(s, e))
  {}

  lemma SupervisionVerifiers(s: State, x: SupervisorAction)
    requires VerifiersOk(s) && SupervisorEnabled(s, x)
    ensures VerifiersOk(SupervisorStep(s, x))
  {}

  lemma VerifierVerifiers(s: State, pid: Pid, a: VerifierAction)
    requires VerifiersOk(s) && VerifierEnabled(s, pid, a)
    ensures VerifiersOk(VerifierStep(s, pid, a))
  {
    var v := s.verifiers[pid];
    assert MovedVerifier(s, v, a).run == v.run && MovedVerifier(s, v, a).json == v.json;
  }

  lemma StepVerifiers(s: State, a: Action)
    requires VerifiersOk(s) && Enabled(s, a)
    ensures VerifiersOk(Do(s, a))
  {
    match a
    case Environment(e) => EnvironmentVerifiers(s, e);
    case Verify(pid, v) => VerifierVerifiers(s, pid, v);
    case Promote(pid, m) =>
    case Supervision(x) => SupervisionVerifiers(s, x);
  }

  lemma WrittenReceiptSound(s: State, pid: Pid)
    requires DagOk(s) && CandidatesStored(s) && VerifiersOk(s) && Enabled(s, Verify(pid, WriteReceipt))
    ensures ReceiptSound(Do(s, Verify(pid, WriteReceipt)), ReceiptOf(s.verifiers[pid]))
  {
    var t := Do(s, Verify(pid, WriteReceipt));
    assert VerificationOf(s.verifiers[pid]) in t.verifications;
    assert Backs(VerificationOf(s.verifiers[pid]), ReceiptOf(s.verifiers[pid]));
  }

  lemma StepReceipts(s: State, a: Action)
    requires DagOk(s) && CandidatesStored(s) && VerifiersOk(s) && ReceiptsOk(s) && Enabled(s, a)
    ensures ReceiptsOk(Do(s, a))
  {
    var t := Do(s, a);
    StepDag(s, a);
    if a.Verify? && a.step.WriteReceipt? { WrittenReceiptSound(s, a.vid); }
    forall run | run in t.receipts
      ensures t.receipts[run].run == run && (t.receipts[run].Full? ==> ReceiptSound(t, t.receipts[run]))
    {
      if run in s.receipts && t.receipts[run] == s.receipts[run] && s.receipts[run].Full? {
        SoundStable(s, t, s.receipts[run]);
      }
    }
  }

  // ------------------------------------------------------------------ promoters

  ghost predicate PastHead(at: PromoterAt) { at.AtAncestry? || PastAncestry(at) }
  ghost predicate PastAncestry(at: PromoterAt) { at.AtSpec? || PastSpec(at) }
  ghost predicate PastSpec(at: PromoterAt) { at.AtSuite? || at.AtMerge? }

  /** What a promoter has established by the time it stands at a given line. */
  ghost predicate PromoterSound(s: State, p: Promoter) {
    && (p.at.AtHead? || PastHead(p.at) ==>
          p.receipt.run == p.run && ReceiptSound(s, p.receipt) && p.receipt.result == PASS)
    && (PastAncestry(p.at) ==> Ancestor(s.dag, p.receipt.base, p.receipt.candidate))
    && (PastSpec(p.at) ==> p.specSeen == p.receipt.spec)
    && (p.at.AtMerge? ==> p.suiteSeen == p.receipt.acceptance)
  }

  ghost predicate PromotersOk(s: State) {
    forall pid :: pid in s.promoters ==> PromoterSound(s, s.promoters[pid])
  }

  lemma PromoterStable(s: State, t: State, p: Promoter)
    requires PromoterSound(s, p) && Extends(s, t)
    ensures PromoterSound(t, p)
  {
    if p.at.AtHead? || PastHead(p.at) { SoundStable(s, t, p.receipt); }
    if PastAncestry(p.at) { AncestorStable(s.dag, t.dag, p.receipt.base, p.receipt.candidate); }
  }

  /** The promoter that takes a step keeps its own record sound. */
  lemma MovedSound(s: State, p: Promoter, a: PromoterAction)
    requires ReceiptsOk(s) && PromoterSound(s, p)
    requires a.TakeLock? ==> p.at == AtLock
    requires a.ReadReceipt? ==> p.at == AtReceiptRead
    requires a.CheckHead? ==> p.at == AtHead
    requires a.CheckAncestry? ==> p.at == AtAncestry
    requires a.CheckSpec? ==> p.at == AtSpec
    requires a.CheckSuite? ==> p.at == AtSuite
    requires a.RecordStatus? ==> p.at.AtRecord?
    requires a.ReleaseLock? ==> p.at.AtRelease?
    ensures PromoterSound(s, MovedPromoter(s, p, a))
  {
    match a
    case TakeLock =>
    case ReadReceipt =>
    case CheckHead =>
    case CheckAncestry =>
    case CheckSpec =>
    case CheckSuite =>
    case _ =>
  }

  lemma AllStable(s: State, t: State, pid: Pid)
    requires PromotersOk(s) && Extends(s, t) && pid in s.promoters
    ensures PromoterSound(t, s.promoters[pid])
  {
    PromoterStable(s, t, s.promoters[pid]);
  }

  lemma PromoterPromoters(s: State, pid: Pid, a: PromoterAction)
    requires ReceiptsOk(s) && PromotersOk(s) && PromoterEnabled(s, pid, a)
    requires Extends(s, PromoterStep(s, pid, a))
    ensures PromotersOk(PromoterStep(s, pid, a))
  {
    var t := PromoterStep(s, pid, a);
    forall q | q in t.promoters ensures PromoterSound(t, t.promoters[q]) {
      if q == pid {
        MovedSound(s, s.promoters[pid], a);
        PromoterStable(s, t, MovedPromoter(s, s.promoters[pid], a));
      } else {
        AllStable(s, t, q);
      }
    }
  }

  /** Promoters that a step leaves alone, or starts, are sound afterwards. */
  lemma OtherPromoters(s: State, t: State)
    requires PromotersOk(s) && Extends(s, t)
    requires forall q :: q in t.promoters ==> (q in s.promoters && t.promoters[q] == s.promoters[q]) || t.promoters[q].at == AtLock
    ensures PromotersOk(t)
  {
    forall q | q in t.promoters ensures PromoterSound(t, t.promoters[q]) {
      if q in s.promoters && t.promoters[q] == s.promoters[q] { AllStable(s, t, q); }
    }
  }

  lemma EnvironmentPromoters(s: State, e: EnvironmentAction)
    requires PromotersOk(s) && EnvironmentEnabled(s, e) && Extends(s, EnvironmentStep(s, e))
    ensures PromotersOk(EnvironmentStep(s, e))
  {
    OtherPromoters(s, EnvironmentStep(s, e));
  }

  lemma SupervisionPromoters(s: State, x: SupervisorAction)
    requires PromotersOk(s) && SupervisorEnabled(s, x) && Extends(s, SupervisorStep(s, x))
    ensures PromotersOk(SupervisorStep(s, x))
  {
    OtherPromoters(s, SupervisorStep(s, x));
  }

  lemma StepPromoters(s: State, a: Action)
    requires DagOk(s) && CandidatesStored(s) && ReceiptsOk(s) && PromotersOk(s) && Enabled(s, a)
    ensures PromotersOk(Do(s, a))
  {
    StepDag(s, a);
    match a
    case Environment(e) => EnvironmentPromoters(s, e);
    case Verify(pid, v) => OtherPromoters(s, VerifierStep(s, pid, v));
    case Promote(pid, m) => PromoterPromoters(s, pid, m);
    case Supervision(x) => SupervisionPromoters(s, x);
  }

  // ------------------------------------------------------------------ merges

  /**
   * A merged commit was judged PASS for its run on the acceptance digest that the promoter
   * recomputed, descends from the run's base, and the recomputed spec digest is the pinned one.
   */
  ghost predicate MergeSound(s: State, m: Merge) {
    && m.run in s.runs && m.candidate < |s.dag|
    && m.spec == s.runs[m.run].spec
    && Ancestor(s.dag, s.runs[m.run].base, m.candidate)
    && exists v :: v in s.verifications && Judged(s, v, m)
  }

  ghost predicate Judged(s: State, v: Verification, m: Merge) {
    && v.run == m.run && v.candidate == m.candidate && v.digest == m.suite
    && m.run in s.runs && v.artifactType == s.runs[m.run].artifactType
    && ChecksHold(v.artifactType, v.checks)
  }

  /** Every merge of the past is sound and its commit is on main. */
  ghost predicate MergesOk(s: State) {
    forall i :: 0 <= i < |s.merges| ==>
      (MergeSound(s, s.merges[i]) && Ancestor(s.dag, s.merges[i].candidate, s.head))
  }

  lemma MergeStable(s: State, t: State, m: Merge)
    requires MergeSound(s, m) && Extends(s, t)
    ensures MergeSound(t, m)
  {
    AncestorStable(s.dag, t.dag, s.runs[m.run].base, m.candidate);
    var v :| v in s.verifications && Judged(s, v, m);
    assert v in t.verifications && Judged(t, v, m);
  }

  lemma StaysOnMain(s: State, a: Action, c: Commit)
    requires DagOk(s) && CandidatesStored(s) && Enabled(s, a) && Ancestor(s.dag, c, s.head)
    ensures Ancestor(Do(s, a).dag, c, Do(s, a).head)
  {
    var t := Do(s, a);
    StepDag(s, a);
    HeadMoves(s, a);
    AncestorStable(s.dag, t.dag, c, s.head);
    AncestorTransitive(t.dag, c, s.head, t.head);
  }

  lemma NewMerge(s: State, pid: Pid)
    requires DagOk(s) && CandidatesStored(s) && PromotersOk(s) && Enabled(s, Promote(pid, MergeExact(false)))
    ensures var t := Do(s, Promote(pid, MergeExact(false)));
            && |t.merges| == |s.merges| + 1
            && MergeSound(t, t.merges[|s.merges|])
            && Ancestor(t.dag, t.merges[|s.merges|].candidate, t.head)
  {
    var a := Promote(pid, MergeExact(false));
    var t := Do(s, a);
    var p := s.promoters[pid];
    var r := p.receipt;
    StepDag(s, a);
    SoundStable(s, t, r);
    AncestorStable(s.dag, t.dag, r.base, r.candidate);
    var v :| v in t.verifications && v.artifactType == t.runs[r.run].artifactType && Backs(v, r);
    assert Judged(t, v, t.merges[|s.merges|]);
    if !Ancestor(s.dag, r.candidate, s.head) {
      assert t.dag[t.head] == {s.head, r.candidate};
      assert Ancestor(t.dag, r.candidate, r.candidate);
    }
  }

  lemma StepMerges(s: State, a: Action)
    requires DagOk(s) && CandidatesStored(s) && PromotersOk(s) && MergesOk(s) && Enabled(s, a)
    ensures MergesOk(Do(s, a))
  {
    var t := Do(s, a);
    StepDag(s, a);
    forall i | 0 <= i < |t.merges|
      ensures MergeSound(t, t.merges[i]) && Ancestor(t.dag, t.merges[i].candidate, t.head)
    {
      if i < |s.merges| {
        assert t.merges[i] == s.merges[i];
        MergeStable(s, t, s.merges[i]);
        StaysOnMain(s, a, s.merges[i].candidate);
      } else {
        NewMerge(s, a.pid);
      }
    }
  }

  /** Repeating or racing a promotion of the same commit never advances main a second time. */
  ghost predicate AdvancesOnce(s: State) {
    forall i, j :: 0 <= i < j < |s.merges| && s.merges[i].candidate == s.merges[j].candidate ==> !s.merges[j].advanced
  }

  lemma StepAdvances(s: State, a: Action)
    requires DagOk(s) && CandidatesStored(s) && MergesOk(s) && AdvancesOnce(s) && Enabled(s, a)
    ensures AdvancesOnce(Do(s, a))
  {
    var t := Do(s, a);
    StepDag(s, a);
    forall i, j | 0 <= i < j < |t.merges| && t.merges[i].candidate == t.merges[j].candidate
      ensures !t.merges[j].advanced
    {
      assert t.merges[i] == s.merges[i];
      if j < |s.merges| { assert t.merges[j] == s.merges[j]; }
    }
  }

  // ------------------------------------------------------------------ locks

  /** A promoter past the lock has it, and shares its run with no other such promoter. */
  ghost predicate LocksOk(s: State) {
    && (forall pid :: pid in s.promoters && HoldsLock(s.promoters[pid]) ==> s.promoters[pid].run in s.locks)
    && (forall p, q :: (p in s.promoters && q in s.promoters && p != q
                        && HoldsLock(s.promoters[p]) && HoldsLock(s.promoters[q])) ==>
          s.promoters[p].run != s.promoters[q].run)
  }

  lemma EnvironmentLocks(s: State, e: EnvironmentAction)
    requires LocksOk(s) && EnvironmentEnabled(s, e)
    ensures LocksOk(EnvironmentStep(s, e))
  {}

  lemma SupervisionLocks(s: State, x: SupervisorAction)
    requires LocksOk(s) && SupervisorEnabled(s, x)
    ensures LocksOk(SupervisorStep(s, x))
  {}

  lemma PromoterLocks(s: State, pid: Pid, a: PromoterAction)
    requires LocksOk(s) && PromoterEnabled(s, pid, a)
    ensures LocksOk(PromoterStep(s, pid, a))
  {
    MovedLock(s, pid, a);
  }

  lemma MovedLock(s: State, pid: Pid, a: PromoterAction)
    requires PromoterEnabled(s, pid, a)
    ensures var p, p' := s.promoters[pid], MovedPromoter(s, s.promoters[pid], a);
            && p'.run == p.run
            && (HoldsLock(p') ==> !a.ReleaseLock? && (HoldsLock(p) || (a.TakeLock? && p.run !in s.locks)))
  {}

  lemma StepLocks(s: State, a: Action)
    requires LocksOk(s) && Enabled(s, a)
    ensures LocksOk(Do(s, a))
  {
    match a
    case Environment(e) => EnvironmentLocks(s, e);
    case Verify(pid, v) =>
    case Promote(pid, m) => PromoterLocks(s, pid, m);
    case Supervision(x) => SupervisionLocks(s, x);
  }

  /** A refused promoter leaves every lock alone: only a holder's step removes a lock, and only its own. */
  lemma LockRemoval(s: State, a: Action, run: RunId)
    requires LocksOk(s) && Enabled(s, a) && run in s.locks && run !in Do(s, a).locks
    ensures a.Promote? && (a.move.ReleaseLock? || a.move.KillPromoter?)
    ensures s.promoters[a.pid].run == run && HoldsLock(s.promoters[a.pid])
  {}

  // ------------------------------------------------------------------ every run

  ghost predicate Inv(s: State) {
    && DagOk(s) && CandidatesStored(s) && VerifiersOk(s) && ReceiptsOk(s) && PromotersOk(s) && MergesOk(s) && AdvancesOnce(s) && LocksOk(s)
  }

  lemma StepInv(s: State, a: Action)
    requires Inv(s) && Enabled(s, a)
    ensures Inv(Do(s, a))
  {
    StepDag(s, a);
    StepCandidates(s, a);
    StepVerifiers(s, a);
    StepReceipts(s, a);
    StepPromoters(s, a);
    StepMerges(s, a);
    StepAdvances(s, a);
    StepLocks(s, a);
  }

  /** An execution: every action enabled where it is taken. */
  ghost predicate Runs(s: State, actions: seq<Action>)
    decreases |actions|
  {
    actions == [] || (Enabled(s, actions[0]) && Runs(Do(s, actions[0]), actions[1..]))
  }

  ghost function After(s: State, actions: seq<Action>): State
    requires Runs(s, actions)
    decreases |actions|
  {
    if actions == [] then s else After(Do(s, actions[0]), actions[1..])
  }

  lemma {:induction false} AlwaysInv(s: State, actions: seq<Action>)
    requires Inv(s) && Runs(s, actions)
    ensures Inv(After(s, actions)) && Extends(s, After(s, actions))
    ensures Ancestor(After(s, actions).dag, s.head, After(s, actions).head)
    decreases |actions|
  {
    if actions != [] {
      var t := Do(s, actions[0]);
      StepInv(s, actions[0]);
      StepDag(s, actions[0]);
      HeadMoves(s, actions[0]);
      AlwaysInv(t, actions[1..]);
      var u := After(t, actions[1..]);
      AncestorStable(t.dag, u.dag, s.head, t.head);
      AncestorTransitive(u.dag, s.head, t.head, u.head);
    }
  }

  lemma StartInv()
    ensures Inv(START)
  {}

  /** The release theorem: in every execution, every merge a promoter made is sound and on main. */
  lemma OnlyVerifiedCommitsReachMain(actions: seq<Action>, i: nat)
    requires Runs(START, actions) && i < |After(START, actions).merges|
    ensures MergeSound(After(START, actions), After(START, actions).merges[i])
    ensures Ancestor(After(START, actions).dag, After(START, actions).merges[i].candidate, After(START, actions).head)
  {
    StartInv();
    AlwaysInv(START, actions);
  }
}
