/**
 * The supervisor's status files: VERIFIED only for a run with a PASS receipt of its own, and,
 * when nobody promotes by hand, one verdict and at most one promotion outcome per run.
 */
module ReleaseSupervisor {
  import opened Values
  import opened Release
  import opened ReleaseSafety

  // ------------------------------------------------------------------ VERIFIED means verified

  /** Some verification of this run passed every applicable gate. */
  ghost predicate RunPassed(s: State, run: RunId) {
    run in s.runs && exists v :: v in s.verifications && Passed(s, run, v)
  }

  ghost predicate Passed(s: State, run: RunId, v: Verification) {
    run in s.runs && v.run == run && v.artifactType == s.runs[run].artifactType
    && ChecksHold(v.artifactType, v.checks)
  }

  ghost predicate ExitsOk(s: State) {
    forall pid :: pid in s.verifiers && s.verifiers[pid].at == Exited(0) ==> RunPassed(s, s.verifiers[pid].run)
  }

  ghost predicate ChildOk(s: State) {
    s.supervisor.Verifying? && s.supervisor.child in s.verifiers ==>
      s.verifiers[s.supervisor.child].run == s.supervisor.run
  }

  ghost predicate OutcomesOk(s: State) {
    forall pid :: pid in s.promoters && s.promoters[pid].at.AtRecord? ==>
      s.promoters[pid].at.status in {PROMOTED, PROMOTION_FAILED}
  }

  ghost predicate VerifiedOk(s: State) {
    forall run :: VERIFIED in History(s, run) ==> RunPassed(s, run)
  }

  lemma PassedStable(s: State, t: State, run: RunId)
    requires RunPassed(s, run) && Extends(s, t)
    ensures RunPassed(t, run)
  {
    var v :| v in s.verifications && Passed(s, run, v);
    assert v in t.verifications && Passed(t, run, v);
  }

  /** The final cross-check: whatever other verifiers left in the shared file, exit 0 needs an own PASS receipt. */
  lemma ValidatedPassed(s: State, pid: Pid)
    requires ReceiptsOk(s) && VerifierEnabled(s, pid, Validate)
    requires MovedVerifier(s, s.verifiers[pid], Validate).at == Exited(0)
    ensures RunPassed(s, s.verifiers[pid].run)
  {
    var r := s.receipts[s.verifiers[pid].run];
    assert ReceiptSound(s, r);
    var v :| v in s.verifications && v.artifactType == s.runs[r.run].artifactType && Backs(v, r);
    VerdictIs(v.artifactType, v.checks);
    assert Passed(s, r.run, v);
  }

  lemma VerifierExits(s: State, pid: Pid, a: VerifierAction)
    requires ReceiptsOk(s) && ExitsOk(s) && VerifierEnabled(s, pid, a) && Extends(s, VerifierStep(s, pid, a))
    ensures ExitsOk(VerifierStep(s, pid, a))
  {
    var t := VerifierStep(s, pid, a);
    forall q | q in t.verifiers && t.verifiers[q].at == Exited(0) ensures RunPassed(t, t.verifiers[q].run) {
      if q == pid {
        ExitOnlyByValidate(s, pid, a);
        ValidatedPassed(s, pid);
        PassedStable(s, t, s.verifiers[pid].run);
      } else {
        PassedStable(s, t, s.verifiers[q].run);
      }
    }
  }

  lemma ExitOnlyByValidate(s: State, pid: Pid, a: VerifierAction)
    requires VerifierEnabled(s, pid, a) && !a.KillVerifier?
    requires MovedVerifier(s, s.verifiers[pid], a).at == Exited(0)
    ensures a.Validate? && MovedVerifier(s, s.verifiers[pid], a).run == s.verifiers[pid].run
  {}

  lemma OtherExits(s: State, t: State)
    requires ExitsOk(s) && Extends(s, t)
    requires forall q :: q in t.verifiers ==> (q in s.verifiers && t.verifiers[q] == s.verifiers[q]) || t.verifiers[q].at == AtClone
    ensures ExitsOk(t)
  {
    forall q | q in t.verifiers && t.verifiers[q].at == Exited(0) ensures RunPassed(t, t.verifiers[q].run) {
      PassedStable(s, t, s.verifiers[q].run);
    }
  }

  lemma EnvironmentExits(s: State, e: EnvironmentAction)
    requires ExitsOk(s) && EnvironmentEnabled(s, e) && Extends(s, EnvironmentStep(s, e))
    ensures ExitsOk(EnvironmentStep(s, e))
  {
    OtherExits(s, EnvironmentStep(s, e));
  }

  lemma SupervisionExits(s: State, x: SupervisorAction)
    requires ExitsOk(s) && SupervisorEnabled(s, x) && Extends(s, SupervisorStep(s, x))
    ensures ExitsOk(SupervisorStep(s, x))
  {
    OtherExits(s, SupervisorStep(s, x));
  }

  lemma StepExits(s: State, a: Action)
    requires Inv(s) && ExitsOk(s) && Enabled(s, a)
    ensures ExitsOk(Do(s, a))
  {
    StepDag(s, a);
    match a
    case Environment(e) => EnvironmentExits(s, e);
    case Verify(pid, v) => VerifierExits(s, pid, v);
    case Promote(pid, m) => OtherExits(s, PromoterStep(s, pid, m));
    case Supervision(x) => SupervisionExits(s, x);
  }

  lemma VerifierChild(s: State, pid: Pid, a: VerifierAction)
    requires ChildOk(s) && VerifierEnabled(s, pid, a)
    ensures ChildOk(VerifierStep(s, pid, a))
  {
    var v := s.verifiers[pid];
    assert MovedVerifier(s, v, a).run == v.run;
  }

  lemma EnvironmentChild(s: State, e: EnvironmentAction)
    requires ChildOk(s) && EnvironmentEnabled(s, e)
    ensures ChildOk(EnvironmentStep(s, e))
  {}

  lemma SupervisionChild(s: State, x: SupervisorAction)
    requires ChildOk(s) && SupervisorEnabled(s, x)
    ensures ChildOk(SupervisorStep(s, x))
  {}

  lemma StepChild(s: State, a: Action)
    requires ChildOk(s) && Enabled(s, a)
    ensures ChildOk(Do(s, a))
  {
    match a
    case Environment(e) => EnvironmentChild(s, e);
    case Verify(pid, v) => VerifierChild(s, pid, v);
    case Promote(pid, m) =>
    case Supervision(x) => SupervisionChild(s, x);
  }

  lemma SupervisionOutcomes(s: State, x: SupervisorAction)
    requires OutcomesOk(s) && SupervisorEnabled(s, x)
    ensures OutcomesOk(SupervisorStep(s, x))
  {}

  lemma PromoterOutcomes(s: State, pid: Pid, m: PromoterAction)
    requires OutcomesOk(s) && PromoterEnabled(s, pid, m)
    ensures OutcomesOk(PromoterStep(s, pid, m))
  {
    MovedOutcome(s, pid, m);
  }

  lemma StepOutcomes(s: State, a: Action)
    requires OutcomesOk(s) && Enabled(s, a)
    ensures OutcomesOk(Do(s, a))
  {
    match a
    case Environment(e) =>
    case Verify(pid, v) =>
    case Promote(pid, m) => PromoterOutcomes(s, pid, m);
    case Supervision(x) => SupervisionOutcomes(s, x);
  }

  lemma MovedOutcome(s: State, pid: Pid, a: PromoterAction)
    requires PromoterEnabled(s, pid, a)
    ensures var at := MovedPromoter(s, s.promoters[pid], a).at;
            at.AtRecord? ==> at.status in {PROMOTED, PROMOTION_FAILED} || a.KillPromoter?
  {}

  /** The line a step adds to a status file, if any: the status and the run. */
  ghost function Writes(s: State, a: Action): Option<(RunId, Status)>
    requires Enabled(s, a)
  {
    match a
    case Promote(pid, m) =>
      if m.RecordStatus? then Some((s.promoters[pid].run, s.promoters[pid].at.status)) else None
    case Supervision(x) =>
      if x.RecordVerdict? then Some((s.supervisor.run, VerdictStatus(s, s.supervisor.child))) else None
    case _ => None
  }

  lemma HistoryStep(s: State, a: Action, run: RunId)
    requires Enabled(s, a)
    ensures var h, h' := History(s, run), History(Do(s, a), run);
            if a.Environment? && a.env.CreateRun? && a.env.run == run then h' == [RUNNING]
            else match Writes(s, a)
                 case None => h' == h
                 case Some(w) => h' == if w.0 == run then h + [w.1] else h
  {
    match a
    case Environment(e) =>
    case Verify(pid, v) =>
    case Promote(pid, m) =>
    case Supervision(x) =>
  }

  lemma StepVerified(s: State, a: Action)
    requires Inv(s) && ExitsOk(s) && ChildOk(s) && OutcomesOk(s) && VerifiedOk(s) && Enabled(s, a)
    ensures VerifiedOk(Do(s, a))
  {
    var t := Do(s, a);
    StepDag(s, a);
    forall run | VERIFIED in History(t, run) ensures RunPassed(t, run) {
      HistoryStep(s, a, run);
      if VERIFIED in History(s, run) {
        PassedStable(s, t, run);
      } else {
        assert Writes(s, a) == Some((run, VERIFIED));
        assert a == Supervision(RecordVerdict);
        PassedStable(s, t, run);
      }
    }
  }

  ghost predicate SupervisedInv(s: State) {
    Inv(s) && ExitsOk(s) && ChildOk(s) && OutcomesOk(s) && VerifiedOk(s)
  }

  lemma {:induction false} AlwaysSupervised(s: State, actions: seq<Action>)
    requires SupervisedInv(s) && Runs(s, actions)
    ensures SupervisedInv(After(s, actions))
    decreases |actions|
  {
    if actions != [] {
      StepInv(s, actions[0]);
      StepExits(s, actions[0]);
      StepChild(s, actions[0]);
      StepOutcomes(s, actions[0]);
      StepVerified(s, actions[0]);
      AlwaysSupervised(Do(s, actions[0]), actions[1..]);
    }
  }

  /**
   * In every execution, manual promotions and concurrent verifiers included, a run marked
   * VERIFIED has a verification of its own that passed every applicable gate.
   */
  lemma VerifiedMeansPassed(actions: seq<Action>, run: RunId)
    requires Runs(START, actions) && VERIFIED in History(After(START, actions), run)
    ensures RunPassed(After(START, actions), run)
  {
    StartInv();
    AlwaysSupervised(START, actions);
  }

  // ------------------------------------------------------------------ one verdict, one outcome

  /** Nobody starts promote-candidate.sh but the supervisor. */
  ghost predicate NoManualPromotion(a: Action) { !(a.Environment? && a.env.StartPromoter?) }

  /** RUNNING, then at most one verdict, then, after VERIFIED only, at most one promotion outcome. */
  ghost predicate WellShaped(h: seq<Status>) {
    && 1 <= |h| <= 3 && h[0] == RUNNING
    && (|h| >= 2 ==> h[1] in {VERIFIED, REJECTED, ERRORED})
    && (|h| == 3 ==> h[1] == VERIFIED && h[2] in {PROMOTED, PROMOTION_FAILED})
  }

  /** A promoter that has yet to write its outcome. */
  predicate Undecided(p: Promoter) { !p.at.AtRelease? && !p.at.Left? }

  ghost predicate Shapes(s: State) {
    && (forall run :: run in s.status <==> run in s.runs)
    && (forall run :: run in s.status ==> WellShaped(s.status[run]))
  }

  ghost predicate PromotersFit(s: State) {
    && (forall pid :: pid in s.promoters ==> VERIFIED in History(s, s.promoters[pid].run))
    && (forall pid :: pid in s.promoters && Undecided(s.promoters[pid]) ==>
          History(s, s.promoters[pid].run) == [RUNNING, VERIFIED])
    && (forall p, q :: (p in s.promoters && q in s.promoters && p != q) ==> s.promoters[p].run != s.promoters[q].run)
  }

  ghost predicate SupervisorFits(s: State) {
    && (s.supervisor.Verifying? ==> History(s, s.supervisor.run) == [RUNNING])
    && (s.supervisor.Approved? ==>
          History(s, s.supervisor.run) == [RUNNING, VERIFIED]
          && forall pid :: pid in s.promoters ==> s.promoters[pid].run != s.supervisor.run)
  }

  ghost predicate StatusOk(s: State) { Shapes(s) && PromotersFit(s) && SupervisorFits(s) && OutcomesOk(s) }

  lemma EnvironmentStatus(s: State, e: EnvironmentAction)
    requires StatusOk(s) && EnvironmentEnabled(s, e) && !e.StartPromoter?
    ensures StatusOk(EnvironmentStep(s, e))
  {
    StepOutcomes(s, Environment(e));
    if e.CreateRun? {
      assert forall pid :: pid in s.promoters ==> s.promoters[pid].run in s.runs;
    }
  }

  lemma PromoterFits(s: State, pid: Pid, m: PromoterAction)
    requires Shapes(s) && PromotersFit(s) && PromoterEnabled(s, pid, m)
    ensures PromotersFit(PromoterStep(s, pid, m))
  {
    MovedUndecided(s, pid, m);
    var t := PromoterStep(s, pid, m);
    forall run ensures History(t, run) == if m.RecordStatus? && run == s.promoters[pid].run
                                          then History(s, run) + [s.promoters[pid].at.status] else History(s, run)
    {}
  }

  lemma RecordShapes(s: State, pid: Pid)
    requires Shapes(s) && PromotersFit(s) && OutcomesOk(s) && PromoterEnabled(s, pid, RecordStatus)
    ensures Shapes(PromoterStep(s, pid, RecordStatus))
  {
    var run := s.promoters[pid].run;
    assert History(s, run) == [RUNNING, VERIFIED];
    assert WellShaped([RUNNING, VERIFIED] + [s.promoters[pid].at.status]);
  }

  lemma PromoterSupervisor(s: State, pid: Pid, m: PromoterAction)
    requires PromotersFit(s) && SupervisorFits(s) && PromoterEnabled(s, pid, m)
    ensures SupervisorFits(PromoterStep(s, pid, m))
  {
    MovedUndecided(s, pid, m);
  }

  lemma PromoterStatus(s: State, pid: Pid, m: PromoterAction)
    requires StatusOk(s) && PromoterEnabled(s, pid, m)
    ensures StatusOk(PromoterStep(s, pid, m))
  {
    StepOutcomes(s, Promote(pid, m));
    PromoterFits(s, pid, m);
    PromoterSupervisor(s, pid, m);
    if m.RecordStatus? { RecordShapes(s, pid); }
  }

  lemma MovedUndecided(s: State, pid: Pid, m: PromoterAction)
    requires PromoterEnabled(s, pid, m)
    ensures var p, p' := s.promoters[pid], MovedPromoter(s, s.promoters[pid], m);
            p'.run == p.run && (Undecided(p') ==> Undecided(p) && !m.RecordStatus?)
  {}

  lemma VerdictShapes(s: State)
    requires Shapes(s) && SupervisorFits(s) && SupervisorEnabled(s, RecordVerdict)
    ensures Shapes(SupervisorStep(s, RecordVerdict)) && SupervisorStep(s, RecordVerdict).promoters == s.promoters
    ensures forall run :: History(SupervisorStep(s, RecordVerdict), run)
              == if run == s.supervisor.run then [RUNNING, VerdictStatus(s, s.supervisor.child)] else History(s, run)
  {
    var run := s.supervisor.run;
    assert History(s, run) == [RUNNING];
    assert WellShaped([RUNNING, VerdictStatus(s, s.supervisor.child)]);
    assert [RUNNING] + [VerdictStatus(s, s.supervisor.child)] == [RUNNING, VerdictStatus(s, s.supervisor.child)];
  }

  lemma NoPromoterWhileVerifying(s: State, pid: Pid)
    requires PromotersFit(s) && SupervisorFits(s) && s.supervisor.Verifying? && pid in s.promoters
    ensures s.promoters[pid].run != s.supervisor.run
  {
    assert VERIFIED !in [RUNNING];
  }

  lemma VerdictFits(s: State)
    requires Shapes(s) && PromotersFit(s) && SupervisorFits(s) && SupervisorEnabled(s, RecordVerdict)
    ensures PromotersFit(SupervisorStep(s, RecordVerdict)) && SupervisorFits(SupervisorStep(s, RecordVerdict))
  {
    VerdictShapes(s);
    forall pid | pid in s.promoters ensures s.promoters[pid].run != s.supervisor.run { NoPromoterWhileVerifying(s, pid); }
  }

  lemma SuperviseFits(s: State, pid: Pid, run: RunId)
    requires Shapes(s) && SupervisorEnabled(s, Supervise(pid, run))
    ensures History(s, run) == [RUNNING]
  {
    assert WellShaped(s.status[run]);
  }

  /** Launching a promoter writes no status. */
  lemma LaunchKeepsHistory(s: State, pid: Pid, run: RunId)
    requires SupervisorEnabled(s, LaunchPromoter(pid))
    ensures History(SupervisorStep(s, LaunchPromoter(pid)), run) == History(s, run)
  {}

  /** The promoters after the launch: the old ones, and perhaps one more, of the supervised run. */
  lemma Launched(s: State, pid: Pid)
    requires SupervisorEnabled(s, LaunchPromoter(pid))
    ensures var t := SupervisorStep(s, LaunchPromoter(pid));
            t.promoters == s.promoters || t.promoters == s.promoters[pid := NewPromoter(s.supervisor.run)]
    ensures pid !in s.promoters
  {}

  /** One more promoter fits, if its run was just verified and nobody promotes it. */
  lemma OneMoreFits(s: State, t: State, pid: Pid, run: RunId)
    requires PromotersFit(s) && pid !in s.promoters && t.promoters == s.promoters[pid := NewPromoter(run)]
    requires forall r :: History(t, r) == History(s, r)
    requires History(s, run) == [RUNNING, VERIFIED] && forall q :: q in s.promoters ==> s.promoters[q].run != run
    ensures PromotersFit(t)
  {
    assert [RUNNING, VERIFIED][1] == VERIFIED;
    forall q | q in t.promoters && q != pid ensures q in s.promoters && t.promoters[q] == s.promoters[q] {}
  }

  lemma LaunchFits(s: State, pid: Pid)
    requires PromotersFit(s) && SupervisorFits(s) && SupervisorEnabled(s, LaunchPromoter(pid))
    ensures PromotersFit(SupervisorStep(s, LaunchPromoter(pid)))
  {
    var t := SupervisorStep(s, LaunchPromoter(pid));
    forall run ensures History(t, run) == History(s, run) { LaunchKeepsHistory(s, pid, run); }
    Launched(s, pid);
    if t.promoters != s.promoters { OneMoreFits(s, t, pid, s.supervisor.run); }
  }

  lemma SupervisionStatus(s: State, x: SupervisorAction)
    requires StatusOk(s) && SupervisorEnabled(s, x)
    ensures StatusOk(SupervisorStep(s, x))
  {
    SupervisionOutcomes(s, x);
    match x
    case Supervise(pid, run) => SuperviseFits(s, pid, run);
    case RecordVerdict => VerdictShapes(s); VerdictFits(s);
    case LaunchPromoter(pid) => LaunchFits(s, pid);
    case FinishPromotion =>
    case KillSupervisor =>
  }

  lemma StepStatus(s: State, a: Action)
    requires StatusOk(s) && Enabled(s, a) && NoManualPromotion(a)
    ensures StatusOk(Do(s, a))
  {
    match a
    case Environment(e) => EnvironmentStatus(s, e);
    case Verify(pid, v) =>
    case Promote(pid, m) => PromoterStatus(s, pid, m);
    case Supervision(x) => SupervisionStatus(s, x);
  }

  lemma {:induction false} AlwaysShaped(s: State, actions: seq<Action>)
    requires StatusOk(s) && Runs(s, actions)
    requires forall i :: 0 <= i < |actions| ==> NoManualPromotion(actions[i])
    ensures StatusOk(After(s, actions))
    decreases |actions|
  {
    if actions != [] {
      assert NoManualPromotion(actions[0]);
      StepStatus(s, actions[0]);
      AlwaysShaped(Do(s, actions[0]), actions[1..]);
    }
  }

  /** Without manual promotion every status file has one verdict and at most one promotion outcome. */
  lemma OneVerdictOneOutcome(actions: seq<Action>, run: RunId)
    requires Runs(START, actions) && run in After(START, actions).runs
    requires forall i :: 0 <= i < |actions| ==> NoManualPromotion(actions[i])
    ensures WellShaped(History(After(START, actions), run))
  {
    AlwaysShaped(START, actions);
  }
}
