/**
 * When one run can advance main again: the exact condition, read off the state, and the executions
 * that show each way in which it comes about.
 */
module ReleaseRaces {
  import opened Values
  import opened Release
  import opened ReleaseSafety
  import opened ReleaseMoves

  // ------------------------------------------------------------------ the condition

  /** `t` has a merge more than `s` that advanced main for this run. */
  ghost predicate Advanced(s: State, t: State, run: RunId) {
    s.merges <= t.merges
    && exists i :: |s.merges| <= i < |t.merges| && t.merges[i].run == run && t.merges[i].advanced
  }

  /** The lock was left behind by a promoter that is gone; nobody will ever take it again. */
  ghost predicate Orphaned(s: State, run: RunId) {
    run in s.locks && forall pid :: pid in s.promoters && HoldsLock(s.promoters[pid]) ==> s.promoters[pid].run != run
  }

  /** The promoter may still merge, or record a failure that lets another one merge. */
  predicate CanAct(s: State, p: Promoter) {
    match p.at
    case AtLock => true
    case AtReceiptRead => true
    case AtHead => p.receipt.Full? && Ancestor(s.dag, p.receipt.base, p.receipt.candidate)
    case AtAncestry => p.receipt.Full? && Ancestor(s.dag, p.receipt.base, p.receipt.candidate)
    case AtSpec => true
    case AtSuite => true
    case AtMerge => true
    case AtRecord(x) => x != PROMOTED
    case AtRelease(_) => false
    case Left(_) => false
  }

  /** The last word on the run is PROMOTED, and nobody is about to add to it. */
  ghost predicate Settled(s: State, run: RunId) {
    && Last(History(s, run)) == Some(PROMOTED)
    && !(s.supervisor.Verifying? && s.supervisor.run == run)
    && forall pid :: pid in s.promoters && s.promoters[pid].run == run ==> !CanAct(s, s.promoters[pid])
  }

  ghost predicate Closed(s: State, run: RunId) { Orphaned(s, run) || Settled(s, run) }

  /** Spec digests are pinned to contents when runs are created. */
  ghost predicate SpecsPinned(s: State) { forall run :: run in s.runs ==> s.runs[run].spec.Sha256? }

  // ------------------------------------------------------------------ closed stays closed

  lemma OrphanStep(s: State, a: Action, run: RunId)
    requires Inv(s) && Enabled(s, a) && Orphaned(s, run)
    ensures Orphaned(Do(s, a), run) && !Advanced(s, Do(s, a), run)
  {
    match a
    case Environment(e) => OrphanEnvironment(s, e, run);
    case Verify(pid, v) =>
    case Promote(pid, m) => OrphanPromoter(s, pid, m, run);
    case Supervision(x) => OrphanSupervisor(s, x, run);
  }

  lemma OrphanEnvironment(s: State, e: EnvironmentAction, run: RunId)
    requires EnvironmentEnabled(s, e) && Orphaned(s, run)
    ensures Orphaned(EnvironmentStep(s, e), run) && !Advanced(s, EnvironmentStep(s, e), run)
  {}

  lemma OrphanSupervisor(s: State, x: SupervisorAction, run: RunId)
    requires SupervisorEnabled(s, x) && Orphaned(s, run)
    ensures Orphaned(SupervisorStep(s, x), run) && !Advanced(s, SupervisorStep(s, x), run)
  {}

  lemma OrphanPromoter(s: State, pid: Pid, m: PromoterAction, run: RunId)
    requires Inv(s) && PromoterEnabled(s, pid, m) && Orphaned(s, run)
    ensures Orphaned(PromoterStep(s, pid, m), run) && !Advanced(s, PromoterStep(s, pid, m), run)
  {
    MovedLock(s, pid, m);
  }

  lemma SettledEnvironment(s: State, e: EnvironmentAction, run: RunId)
    requires Inv(s) && EnvironmentEnabled(s, e) && run in s.runs && Settled(s, run)
    ensures Settled(EnvironmentStep(s, e), run) && !Advanced(s, EnvironmentStep(s, e), run)
  {
    var t := EnvironmentStep(s, e);
    assert History(t, run) == History(s, run);
    forall pid | pid in t.promoters && t.promoters[pid].run == run ensures !CanAct(t, t.promoters[pid]) {
      assert pid in s.promoters && t.promoters[pid] == s.promoters[pid];
      CanActStable(s, Environment(e), s.promoters[pid]);
    }
  }

  /** What a promoter can do does not depend on commits made after its receipt. */
  lemma CanActStable(s: State, a: Action, p: Promoter)
    requires Inv(s) && Enabled(s, a) && (p.receipt.Full? ==> p.receipt.candidate < |s.dag|)
    ensures CanAct(Do(s, a), p) <==> CanAct(s, p)
  {
    StepDag(s, a);
    if p.receipt.Full? { AncestorStable(s.dag, Do(s, a).dag, p.receipt.base, p.receipt.candidate); }
  }

  lemma SettledVerifier(s: State, pid: Pid, v: VerifierAction, run: RunId)
    requires Inv(s) && VerifierEnabled(s, pid, v) && Settled(s, run)
    ensures Settled(VerifierStep(s, pid, v), run) && !Advanced(s, VerifierStep(s, pid, v), run)
  {
    var t := VerifierStep(s, pid, v);
    assert t.dag == s.dag && t.promoters == s.promoters && t.merges == s.merges;
    assert forall p :: CanAct(t, p) <==> CanAct(s, p);
  }

  lemma SettledSupervisor(s: State, x: SupervisorAction, run: RunId)
    requires Inv(s) && SupervisorEnabled(s, x) && Settled(s, run)
    ensures Settled(SupervisorStep(s, x), run) && !Advanced(s, SupervisorStep(s, x), run)
  {
    var t := SupervisorStep(s, x);
    assert forall p :: CanAct(t, p) <==> CanAct(s, p);
  }

  /** A promoter that cannot act, and one that moves on, whatever it meets. */
  lemma IdleStays(s: State, p: Promoter, m: PromoterAction)
    requires p.at.AtRelease? || !m.ReleaseLock?
    requires p.at.AtRecord? || !m.RecordStatus?
    requires !CanAct(s, p) && (m.KillPromoter? || m == Due(p.at))
    ensures !CanAct(s, MovedPromoter(s, p, m)) && !m.MergeExact?
    ensures m.RecordStatus? ==> p.at.status == PROMOTED
  {}

  /** The step that a promoter at a given line takes next; a merge by itself is told apart by its outcome. */
  function Due(at: PromoterAt): PromoterAction {
    match at
    case AtLock => TakeLock
    case AtReceiptRead => ReadReceipt
    case AtHead => CheckHead
    case AtAncestry => CheckAncestry
    case AtSpec => CheckSpec
    case AtSuite => CheckSuite
    case AtMerge => MergeExact(false)
    case AtRecord(_) => RecordStatus
    case AtRelease(_) => ReleaseLock
    case Left(_) => KillPromoter(false)
  }

  lemma SettledPromoter(s: State, pid: Pid, m: PromoterAction, run: RunId)
    requires Inv(s) && PromoterEnabled(s, pid, m) && Settled(s, run)
    ensures Settled(PromoterStep(s, pid, m), run) && !Advanced(s, PromoterStep(s, pid, m), run)
  {
    var t, p := PromoterStep(s, pid, m), s.promoters[pid];
    if p.run == run {
      assert m.KillPromoter? || m == Due(p.at);
      IdleStays(s, p, m);
      assert t.merges == s.merges && t.dag == s.dag;
      CanActSameDag(s, t);
    }
    forall q | q in t.promoters && t.promoters[q].run == run && q != pid ensures !CanAct(t, t.promoters[q]) {
      CanActStable(s, Promote(pid, m), s.promoters[q]);
    }
    MovedLock(s, pid, m);
    HistoryOf(s, pid, m, run);
  }

  lemma CanActSameDag(s: State, t: State)
    requires s.dag == t.dag
    ensures forall p :: CanAct(t, p) <==> CanAct(s, p)
  {}

  lemma HistoryOf(s: State, pid: Pid, m: PromoterAction, run: RunId)
    requires PromoterEnabled(s, pid, m)
    requires m.RecordStatus? && s.promoters[pid].run == run ==> s.promoters[pid].at.status == PROMOTED
    requires Last(History(s, run)) == Some(PROMOTED)
    ensures Last(History(PromoterStep(s, pid, m), run)) == Some(PROMOTED)
  {}

  lemma ClosedStep(s: State, a: Action, run: RunId)
    requires Inv(s) && Enabled(s, a) && run in s.runs && Closed(s, run)
    ensures Closed(Do(s, a), run) && !Advanced(s, Do(s, a), run)
  {
    if Orphaned(s, run) {
      OrphanStep(s, a, run);
    } else {
      match a
      case Environment(e) => SettledEnvironment(s, e, run);
      case Verify(pid, v) => SettledVerifier(s, pid, v, run);
      case Promote(pid, m) => SettledPromoter(s, pid, m, run);
      case Supervision(x) => SettledSupervisor(s, x, run);
    }
  }

  /** Once closed, a run never advances main again. */
  lemma {:induction false} ClosedForever(s: State, actions: seq<Action>, run: RunId)
    requires Inv(s) && Runs(s, actions) && run in s.runs && Closed(s, run)
    ensures !Advanced(s, After(s, actions), run)
    decreases |actions|
  {
    if actions != [] {
      var t := Do(s, actions[0]);
      StepInv(s, actions[0]);
      StepDag(s, actions[0]);
      ClosedStep(s, actions[0], run);
      ClosedForever(t, actions[1..], run);
      AlwaysInv(t, actions[1..]);
    }
  }

  // ------------------------------------------------------------------ open means it can

  /** `t` is `s` after one more advance of the run by promoter `pid`; the others stand where they stood. */
  ghost predicate AdvancedBy(s: State, t: State, run: RunId, pid: Pid) {
    && |t.merges| == |s.merges| + 1 && s.merges <= t.merges
    && t.merges[|s.merges|].run == run && t.merges[|s.merges|].advanced
    && History(t, run) == History(s, run) + [PROMOTED]
    && t.locks == s.locks - {run} && Grounded(t, run) && t.supervisor == s.supervisor
    && run in t.receipts && t.receipts[run].Full? && t.receipts[run].result == PASS
    && (forall v :: v in s.verifiers ==> v in t.verifiers && t.verifiers[v] == s.verifiers[v])
    && (forall q :: q != pid ==> (q in t.promoters <==> q in s.promoters))
    && (forall q :: q != pid && q in s.promoters ==> t.promoters[q] == s.promoters[q])
  }

  lemma AdvanceReading(o: State, s: State, run: RunId, pid: Pid) returns (t: State)
    requires Leads(o, s) && Grounded(s, run) && run in s.locks
    requires pid in s.promoters && s.promoters[pid].run == run && s.promoters[pid].at == AtReceiptRead
    ensures Leads(o, t) && AdvancedBy(s, t, run, pid)
  {
    var vid := FreshId(s);
    PrepareMoves(o, s, run, vid);
    var w, r := Prepared(s, run, vid), PassReceipt(Rebuilt(s, run), run);
    PassReceiptIs(Rebuilt(s, run), run);
    var u := w.(locks := w.locks - {run});
    PromoterInPlace(w, run, pid);
    assert Matches(u, run, r);
    PromoteFrom(o, u, pid, w.promoters[pid], r);
    t := Promoted(u, pid, run, r);
  }

  lemma PromoterInPlace(s: State, run: RunId, pid: Pid)
    requires run in s.locks && pid in s.promoters && s.promoters[pid].run == run
    ensures s == WithPromoter(s.(locks := s.locks - {run}), pid, s.promoters[pid])
  {
    assert s.locks == s.locks - {run} + {run} && s.promoters == s.promoters[pid := s.promoters[pid]];
  }

  lemma AdvanceWaiting(o: State, s: State, run: RunId, pid: Pid) returns (t: State)
    requires Leads(o, s) && Grounded(s, run) && run !in s.locks
    requires pid in s.promoters && s.promoters[pid].run == run && s.promoters[pid].at == AtLock
    ensures Leads(o, t) && AdvancedBy(s, t, run, pid)
  {
    LockMoves(o, s, pid);
    var u := WithPromoter(s, pid, s.promoters[pid].(at := AtReceiptRead));
    t := AdvanceReading(o, u, run, pid);
    assert u.locks - {run} == s.locks;
  }

  /** A run that is not PROMOTED, with its lock free, can be verified again and promoted. */
  lemma AdvanceNew(o: State, s: State, run: RunId) returns (t: State, pid: Pid)
    requires Leads(o, s) && Grounded(s, run) && run !in s.locks && Last(History(s, run)) != Some(PROMOTED)
    ensures Leads(o, t) && pid !in s.promoters && AdvancedBy(s, t, run, pid)
  {
    var vid := FreshId(s);
    PrepareMoves(o, s, run, vid);
    var w := Prepared(s, run, vid);
    pid := FreshId(w);
    var u := w.(promoters := w.promoters[pid := NewPromoter(run)]);
    EnvironmentLeads(o, w, StartPromoter(pid, run), u);
    t := AdvanceWaiting(o, u, run, pid);
  }

  /** A lock that somebody holds can come free: its holder is killed, and its exit trap runs. */
  lemma FreeLock(o: State, s: State, run: RunId) returns (t: State, q: Pid)
    requires Leads(o, s) && run in s.locks && !Orphaned(s, run)
    ensures Leads(o, t) && q in s.promoters && HoldsLock(s.promoters[q])
    ensures t == s.(promoters := s.promoters - {q}, locks := s.locks - {run})
  {
    q :| q in s.promoters && HoldsLock(s.promoters[q]) && s.promoters[q].run == run;
    t := s.(promoters := s.promoters - {q}, locks := s.locks - {run});
    PromoteLeads(o, s, q, KillPromoter(true), t);
  }

  lemma AdvanceUnpromoted(o: State, s: State, run: RunId) returns (t: State)
    requires Leads(o, s) && Grounded(s, run) && !Orphaned(s, run) && Last(History(s, run)) != Some(PROMOTED)
    ensures Leads(o, t) && s.merges <= t.merges && Advanced(s, t, run)
  {
    var u, pid := s, 0;
    if run in s.locks { u, pid := FreeLock(o, s, run); }
    t, pid := AdvanceNew(o, u, run);
  }

  /** A verdict that the supervisor still waits for puts the run back in play. */
  lemma AdvanceSupervised(o: State, s: State, run: RunId) returns (t: State)
    requires Leads(o, s) && Grounded(s, run) && !Orphaned(s, run)
    requires s.supervisor.Verifying? && s.supervisor.run == run
    ensures Leads(o, t) && Advanced(s, t, run)
  {
    var u := ChildGone(o, s);
    var v := u.(status := Append(u, run, REJECTED), supervisor := Idle);
    assert SupervisorStep(u, RecordVerdict) == v;
    SuperviseLeads(o, u, RecordVerdict, v);
    t := AdvanceUnpromoted(o, v, run);
  }

  lemma ChildGone(o: State, s: State) returns (u: State)
    requires Leads(o, s) && s.supervisor.Verifying?
    ensures Leads(o, u) && u == s.(verifiers := u.verifiers) && s.supervisor.child !in u.verifiers
  {
    u := s.(verifiers := s.verifiers - {s.supervisor.child});
    if s.supervisor.child in s.verifiers {
      VerifyLeads(o, s, s.supervisor.child, KillVerifier, u);
    } else {
      assert u.verifiers == s.verifiers && u == s;
    }
  }

  // ------------------------------------------------------------------ a promoter that can still fail

  /** The promoter has moved to `at`, keeping its receipt; runs, commits, merges, locks and status are as before. */
  ghost predicate MovedOn(s: State, t: State, pid: Pid, at: PromoterAt) {
    && pid in s.promoters && pid in t.promoters
    && t.promoters[pid].run == s.promoters[pid].run && t.promoters[pid].receipt == s.promoters[pid].receipt
    && t.promoters[pid].at == at
    && t.runs == s.runs && t.dag == s.dag && t.head == s.head && t.merges == s.merges && t.locks == s.locks
    && t.status == s.status
  }

  lemma HeadPasses(o: State, s: State, pid: Pid) returns (t: State)
    requires Leads(o, s) && pid in s.promoters && s.promoters[pid].at == AtHead && s.promoters[pid].run in s.runs
    requires s.promoters[pid].receipt.Full? && s.promoters[pid].receipt.candidate < |s.dag|
    ensures Leads(o, t) && MovedOn(s, t, pid, AtAncestry)
  {
    var p := s.promoters[pid];
    var u := s.(branches := s.branches[p.run := p.receipt.candidate]);
    EnvironmentLeads(o, s, MoveBranch(p.run, Some(p.receipt.candidate)), u);
    t := PromoterStep(u, pid, CheckHead);
    PromoteLeads(o, u, pid, CheckHead, t);
  }

  lemma AncestryPasses(o: State, s: State, pid: Pid) returns (t: State)
    requires Leads(o, s) && pid in s.promoters && s.promoters[pid].at == AtAncestry && CanAct(s, s.promoters[pid])
    ensures Leads(o, t) && MovedOn(s, t, pid, AtSpec)
  {
    t := PromoterStep(s, pid, CheckAncestry);
    PromoteLeads(o, s, pid, CheckAncestry, t);
  }

  lemma SpecPasses(o: State, s: State, pid: Pid) returns (t: State)
    requires Leads(o, s) && pid in s.promoters && s.promoters[pid].at == AtSpec && s.promoters[pid].run in s.runs
    requires s.promoters[pid].receipt.Full? && s.promoters[pid].receipt.spec.Sha256?
    ensures Leads(o, t) && MovedOn(s, t, pid, AtSuite)
  {
    var p := s.promoters[pid];
    var u := s.(specs := s.specs[p.run := p.receipt.spec.content]);
    EnvironmentLeads(o, s, WriteSpec(p.run, Some(p.receipt.spec.content)), u);
    t := PromoterStep(u, pid, CheckSpec);
    PromoteLeads(o, u, pid, CheckSpec, t);
  }

  /** Any digest can be the suite's. */
  lemma WriteMatching(o: State, s: State, idea: IdeaId, d: Digest) returns (u: State)
    requires Leads(o, s)
    ensures Leads(o, u) && SuiteDigest(u, idea) == d && u == s.(suites := u.suites)
  {
    var suite := if d.Sha256? then Some(d.content) else None;
    u := s.(suites := if suite.Some? then s.suites[idea := suite.value] else s.suites - {idea});
    EnvironmentLeads(o, s, WriteSuite(idea, suite), u);
  }

  lemma SuitePasses(o: State, s: State, pid: Pid) returns (t: State)
    requires Leads(o, s) && pid in s.promoters && s.promoters[pid].at == AtSuite && s.promoters[pid].run in s.runs
    requires s.promoters[pid].receipt.Full?
    ensures Leads(o, t) && MovedOn(s, t, pid, AtMerge)
  {
    var u := WriteMatching(o, s, s.runs[s.promoters[pid].run].idea, s.promoters[pid].receipt.acceptance);
    t := PromoterStep(u, pid, CheckSuite);
    PromoteLeads(o, u, pid, CheckSuite, t);
  }

  lemma MergeFails(o: State, s: State, pid: Pid) returns (t: State)
    requires Leads(o, s) && pid in s.promoters && s.promoters[pid].at == AtMerge && s.promoters[pid].receipt.Full?
    ensures Leads(o, t) && MovedOn(s, t, pid, AtRecord(PROMOTION_FAILED))
  {
    t := PromoterStep(s, pid, MergeExact(true));
    PromoteLeads(o, s, pid, MergeExact(true), t);
  }

  /** The failure is recorded and the lock given back. */
  lemma FailureRecorded(o: State, s: State, pid: Pid) returns (t: State)
    requires Leads(o, s) && pid in s.promoters && s.promoters[pid].at.AtRecord? && s.promoters[pid].at.status != PROMOTED
    ensures var run := s.promoters[pid].run;
            && Leads(o, t) && t.runs == s.runs && t.dag == s.dag && t.head == s.head && t.merges == s.merges
            && run !in t.locks && Last(History(t, run)) != Some(PROMOTED)
  {
    var u := PromoterStep(s, pid, RecordStatus);
    PromoteLeads(o, s, pid, RecordStatus, u);
    t := PromoterStep(u, pid, ReleaseLock);
    PromoteLeads(o, u, pid, ReleaseLock, t);
  }

  /** From any line before the merge at which the remaining checks can pass, a promoter can fail at the merge. */
  lemma DriveToFailure(o: State, s: State, pid: Pid) returns (t: State)
    requires Leads(o, s) && pid in s.promoters && CanAct(s, s.promoters[pid]) && s.promoters[pid].run in s.runs
    requires !s.promoters[pid].at.AtLock? && !s.promoters[pid].at.AtReceiptRead?
    requires s.promoters[pid].at.AtRecord? ||
             (s.promoters[pid].receipt.Full? && s.promoters[pid].receipt.spec.Sha256?
              && s.promoters[pid].receipt.candidate < |s.dag|)
    ensures var run := s.promoters[pid].run;
            && Leads(o, t) && t.runs == s.runs && t.dag == s.dag && t.head == s.head && t.merges == s.merges
            && run !in t.locks && Last(History(t, run)) != Some(PROMOTED)
  {
    var u := s;
    if u.promoters[pid].at == AtHead { u := HeadPasses(o, u, pid); }
    if u.promoters[pid].at == AtAncestry { u := AncestryPasses(o, u, pid); }
    if u.promoters[pid].at == AtSpec { u := SpecPasses(o, u, pid); }
    if u.promoters[pid].at == AtSuite { u := SuitePasses(o, u, pid); }
    if u.promoters[pid].at == AtMerge { u := MergeFails(o, u, pid); }
    t := FailureRecorded(o, u, pid);
  }

  /** A promoter that can act can, directly or by failing first, lead to another advance. */
  lemma AdvanceByPromoter(s: State, run: RunId, pid: Pid) returns (t: State)
    requires Inv(s) && SpecsPinned(s) && run in s.runs && !Orphaned(s, run)
    requires pid in s.promoters && s.promoters[pid].run == run && CanAct(s, s.promoters[pid])
    ensures Leads(s, t) && Advanced(s, t, run)
  {
    LeadsNowhere(s);
    assert Grounded(s, run);
    var p := s.promoters[pid];
    assert PromoterSound(s, p);
    if p.at == AtLock {
      var u, q := s, 0;
      if run in s.locks { u, q := FreeLock(s, s, run); }
      t := AdvanceWaiting(s, u, run, pid);
    } else if p.at == AtReceiptRead {
      t := AdvanceReading(s, s, run, pid);
    } else {
      t := AdvanceAfterFailure(s, run, pid);
    }
  }

  lemma AdvanceAfterFailure(s: State, run: RunId, pid: Pid) returns (t: State)
    requires Leads(s, s) && Grounded(s, run) && pid in s.promoters && s.promoters[pid].run == run
    requires CanAct(s, s.promoters[pid]) && PromoterSound(s, s.promoters[pid]) && SpecsPinned(s) && Inv(s)
    requires !s.promoters[pid].at.AtLock? && !s.promoters[pid].at.AtReceiptRead?
    ensures Leads(s, t) && Advanced(s, t, run)
  {
    var u := DriveToFailure(s, s, pid);
    assert !Orphaned(u, run);
    t := AdvanceUnpromoted(s, u, run);
  }

  lemma OpenAdvances(s: State, run: RunId) returns (t: State)
    requires Inv(s) && SpecsPinned(s) && run in s.runs && !Closed(s, run)
    ensures Leads(s, t) && Advanced(s, t, run)
  {
    LeadsNowhere(s);
    if Last(History(s, run)) != Some(PROMOTED) {
      t := AdvanceUnpromoted(s, s, run);
    } else if s.supervisor.Verifying? && s.supervisor.run == run {
      t := AdvanceSupervised(s, s, run);
    } else {
      var pid :| pid in s.promoters && s.promoters[pid].run == run && CanAct(s, s.promoters[pid]);
      t := AdvanceByPromoter(s, run, pid);
    }
  }

  lemma {:induction false} AlwaysPinned(s: State, actions: seq<Action>)
    requires SpecsPinned(s) && Runs(s, actions)
    ensures SpecsPinned(After(s, actions))
    decreases |actions|
  {
    if actions != [] {
      PinnedStep(s, actions[0]);
      AlwaysPinned(Do(s, actions[0]), actions[1..]);
    }
  }

  lemma PinnedStep(s: State, a: Action)
    requires SpecsPinned(s) && Enabled(s, a)
    ensures SpecsPinned(Do(s, a))
  {}

  /**
   * The exact condition, in every state any execution reaches: the run can advance main again if and only if
   * its lock is not orphaned, and the last word on it is not PROMOTED, or a promoter can still act, or the
   * supervisor still waits for a verdict on it.
   */
  lemma CanAdvanceIff(actions: seq<Action>, run: RunId)
    requires Runs(START, actions) && run in After(START, actions).runs
    ensures var s := After(START, actions);
            (exists t :: Leads(s, t) && Advanced(s, t, run)) <==> !Closed(s, run)
  {
    var s := After(START, actions);
    StartInv();
    AlwaysInv(START, actions);
    AlwaysPinned(START, actions);
    if Closed(s, run) {
      forall t | Leads(s, t) ensures !Advanced(s, t, run) {
        var more :| Runs(s, more) && After(s, more) == t;
        ClosedForever(s, more, run);
      }
    } else {
      var t := OpenAdvances(s, run);
    }
  }

  // ------------------------------------------------------------------ one commit, one advance

  /** Everything verified for the run was the commit `c`. */
  ghost predicate OneCandidate(s: State, run: RunId, c: Commit) {
    forall v :: v in s.verifications && v.run == run ==> v.candidate == c
  }

  /** Racing and repeated promotions of a run whose branch stayed put advance main at most once. */
  lemma OneCandidateAdvancesOnce(actions: seq<Action>, run: RunId, c: Commit, i: nat, j: nat)
    requires Runs(START, actions) && OneCandidate(After(START, actions), run, c)
    requires i < j < |After(START, actions).merges|
    requires After(START, actions).merges[i].run == run == After(START, actions).merges[j].run
    ensures !After(START, actions).merges[j].advanced
  {
    var s := After(START, actions);
    OnlyVerifiedCommitsReachMain(actions, i);
    OnlyVerifiedCommitsReachMain(actions, j);
    StartInv();
    AlwaysInv(START, actions);
    assert s.merges[i].candidate == s.merges[j].candidate == c;
  }

  // ------------------------------------------------------------------ three ways to advance twice

  ghost predicate TwoAdvances(t: State) {
    |t.merges| == 2 && t.merges[0].run == R == t.merges[1].run && t.merges[0].advanced && t.merges[1].advanced
  }

  lemma Grows(s: State, t: State, u: State, p: Pid, q: Pid)
    requires s.merges == [] && AdvancedBy(s, t, R, p) && AdvancedBy(t, u, R, q)
    ensures TwoAdvances(u) && History(u, R) == History(s, R) + [PROMOTED, PROMOTED]
  {
    assert u.merges[0] == t.merges[0];
    assert History(s, R) + [PROMOTED] + [PROMOTED] == History(s, R) + [PROMOTED, PROMOTED];
  }

  /** The run has a PASS receipt for a commit that is not on main, and nobody is at work on it. */
  lemma VerifiedRun() returns (s: State, r: Receipt)
    ensures Leads(START, s) && Grounded(s, R) && Matches(s, R, r) && !Ancestor(s.dag, r.candidate, s.head)
    ensures s.promoters == map[] && s.locks == {} && s.merges == [] && History(s, R) == [RUNNING]
    ensures s.verifiers.Keys == {0} && s.supervisor == Idle
  {
    BuiltReachable();
    PrepareMoves(START, BUILT, R, 0);
    s, r := Prepared(BUILT, R, 0), PassReceipt(Rebuilt(BUILT, R), R);
    PassReceiptIs(Rebuilt(BUILT, R), R);
  }

  /** Two promoters pass the status check before either takes the lock. */
  lemma OneRunAdvancesTwice() returns (t: State)
    ensures Leads(START, t) && TwoAdvances(t) && History(t, R) == [RUNNING, PROMOTED, PROMOTED]
  {
    var w, r := VerifiedRun();
    var s := Started(START, w, 1);
    var u := Started(START, s, 2);
    var v := AdvanceWaiting(START, u, R, 1);
    t := AdvanceWaiting(START, v, R, 2);
    Grows(u, v, t, 1, 2);
  }

  lemma MergeReached(u: State, r: Receipt)
    requires Leads(START, u) && Matches(u, R, r) && !Ancestor(u.dag, r.candidate, u.head) && R !in u.locks
    requires 1 in u.promoters && u.promoters[1] == NewPromoter(R)
    ensures Leads(START, Merged(u, 1, R, r, AtRecord(PROMOTED), u.status, u.locks + {R}))
  {
    LockMoves(START, u, 1);
    ReadToMerge(START, u, 1, NewPromoter(R).(at := AtReceiptRead), r);
    MergeMoves(START, u, 1, R, r);
  }

  /** A promoter has merged and been killed before it wrote the status. */
  lemma MergedAndKilled() returns (s: State)
    ensures Leads(START, s) && |s.merges| == 1 && s.merges[0].run == R && s.merges[0].advanced
    ensures s.promoters == map[] && s.locks == {} && History(s, R) == [RUNNING] && Grounded(s, R)
  {
    var w, r := VerifiedRun();
    var u := Started(START, w, 1);
    MergeReached(u, r);
    var v := Merged(u, 1, R, r, AtRecord(PROMOTED), u.status, u.locks + {R});
    s := v.(promoters := map[], locks := {});
    assert v.promoters - {1} == map[] && v.locks - {R} == {};
    assert PromoterStep(v, 1, KillPromoter(true)) == s;
    PromoteLeads(START, v, 1, KillPromoter(true), s);
  }

  /** One promoter after another, never two at a time: the first is killed between its merge and its status line. */
  lemma KilledPromoterAdvancesTwice() returns (s: State, t: State)
    ensures Leads(START, s) && s.promoters == map[] && |s.merges| == 1 && s.merges[0].advanced
    ensures Leads(START, t) && TwoAdvances(t) && History(t, R) == [RUNNING, PROMOTED]
  {
    s := MergedAndKilled();
    var pid;
    t, pid := AdvanceNew(START, s, R);
    assert t.merges[0] == s.merges[0];
  }

  // ------------------------------------------------------------------ a verdict that comes late

  /** A verifier that has written a PASS receipt exits with 0, if the receipt in place says PASS then too. */
  lemma VerifierExitsWell(o: State, s: State, pid: Pid) returns (t: State)
    requires Leads(o, s) && pid in s.verifiers && s.verifiers[pid].at == AtTmp && s.verifiers[pid].run in s.receipts
    requires ReceiptOf(s.verifiers[pid]).result == PASS
    requires s.receipts[s.verifiers[pid].run].Full? && s.receipts[s.verifiers[pid].run].result == PASS
    ensures Leads(o, t) && t == s.(tmp := None, verifiers := t.verifiers)
    ensures pid in t.verifiers && t.verifiers[pid].at == Exited(0)
  {
    var u := TmpRead(o, s, pid);
    var v := u.(tmp := None, verifiers := u.verifiers[pid := u.verifiers[pid].(at := AtValidate)]);
    VerifyLeads(o, u, pid, ClearTmp, v);
    t := Validated(o, v, pid);
  }

  lemma Validated(o: State, s: State, pid: Pid) returns (t: State)
    requires Leads(o, s) && pid in s.verifiers && s.verifiers[pid].at == AtValidate && s.verifiers[pid].run in s.receipts
    requires s.verifiers[pid].result == PASS
    requires s.receipts[s.verifiers[pid].run].Full? && s.receipts[s.verifiers[pid].run].result == PASS
    ensures Leads(o, t) && t == s.(verifiers := t.verifiers) && pid in t.verifiers && t.verifiers[pid].at == Exited(0)
  {
    t := s.(verifiers := s.verifiers[pid := s.verifiers[pid].(at := Exited(0))]);
    VerifyLeads(o, s, pid, Validate, t);
  }

  lemma TmpRead(o: State, s: State, pid: Pid) returns (t: State)
    requires Leads(o, s) && pid in s.verifiers && s.verifiers[pid].at == AtTmp
    requires ReceiptOf(s.verifiers[pid]).result == PASS
    ensures Leads(o, t) && t == s.(tmp := Some(PASS), verifiers := t.verifiers) && pid in t.verifiers
    ensures t.verifiers[pid] == s.verifiers[pid].(at := AtClear, result := PASS)
  {
    var u := s.(tmp := Some(PASS), verifiers := s.verifiers[pid := s.verifiers[pid].(at := AtRead)]);
    VerifyLeads(o, s, pid, WriteTmp, u);
    t := VerifierStep(u, pid, ReadTmp);
    VerifyLeads(o, u, pid, ReadTmp, t);
  }

  /** The supervisor waits for verifier 0, which has written its PASS receipt. */
  lemma SupervisedReceipt() returns (s: State)
    ensures Leads(START, s) && Grounded(s, R) && s.supervisor == Verifying(R, 0) && s.promoters == map[] && s.locks == {}
    ensures s.merges == [] && History(s, R) == [RUNNING] && R in s.receipts
    ensures s.verifiers.Keys == {0} && s.verifiers[0].at == AtTmp && s.verifiers[0].run == R
    ensures ReceiptOf(s.verifiers[0]).result == PASS
  {
    BuiltReachable();
    var u := BUILT.(supervisor := Verifying(R, 0));
    var v := WithVerifier(u, 0, NewVerifier(u, R));
    assert SupervisorStep(BUILT, Supervise(0, R)) == v;
    SuperviseLeads(START, BUILT, Supervise(0, R), v);
    VerifyFrom(START, u, 0, R);
    s := Verified(u, 0, R);
    PassReceiptIs(u, R);
  }

  /** The verdict that a supervisor waits for is recorded, whatever the status says by then. */
  lemma VerdictComes(o: State, s: State) returns (t: State)
    requires Leads(o, s) && s.supervisor == Verifying(R, 0) && 0 in s.verifiers && s.verifiers[0].at == AtTmp
    requires s.verifiers[0].run == R && ReceiptOf(s.verifiers[0]).result == PASS
    requires R in s.receipts && s.receipts[R].Full? && s.receipts[R].result == PASS
    ensures Leads(o, t)
    ensures t == s.(status := Append(s, R, VERIFIED), supervisor := Approved(R), tmp := t.tmp, verifiers := t.verifiers)
  {
    var d := VerifierExitsWell(o, s, 0);
    t := d.(status := Append(d, R, VERIFIED), supervisor := Approved(R));
    assert SupervisorStep(d, RecordVerdict) == t;
    SuperviseLeads(o, d, RecordVerdict, t);
  }

  /** A manual promotion is recorded while the supervisor waits; then the verdict comes. */
  lemma VerdictAfterPromotion() returns (s: State)
    ensures Leads(START, s) && Grounded(s, R) && s.locks == {}
    ensures |s.merges| == 1 && s.merges[0].run == R && s.merges[0].advanced
    ensures History(s, R) == [RUNNING, PROMOTED, VERIFIED]
  {
    var a := SupervisedReceipt();
    var b := Started(START, a, 1);
    var c := AdvanceWaiting(START, b, R, 1);
    assert c.verifiers[0] == a.verifiers[0];
    s := VerdictComes(START, c);
    assert History(s, R) == [RUNNING] + [PROMOTED] + [VERIFIED];
  }

  /** PROMOTED is no longer the last word, and the run advances main again. */
  lemma StaleVerdictAdvancesTwice() returns (s: State, t: State)
    ensures Leads(START, s) && |s.merges| == 1 && s.merges[0].advanced && History(s, R) == [RUNNING, PROMOTED, VERIFIED]
    ensures Leads(START, t) && TwoAdvances(t) && History(t, R) == [RUNNING, PROMOTED, VERIFIED, PROMOTED]
  {
    s := VerdictAfterPromotion();
    var pid;
    t, pid := AdvanceNew(START, s, R);
    assert t.merges[0] == s.merges[0];
    assert [RUNNING, PROMOTED, VERIFIED] + [PROMOTED] == [RUNNING, PROMOTED, VERIFIED, PROMOTED];
  }
}
