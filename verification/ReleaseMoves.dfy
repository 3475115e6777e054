/**
 * Whole stretches of an execution: a run verified from its branch, a promotion from the lock to the
 * status line, for any run in any state.
 */
module ReleaseMoves {
  import opened Values
  import opened Release
  import opened ReleaseSafety

  /** Some execution goes from `o` to `t`. */
  ghost predicate Leads(o: State, t: State) {
    exists actions :: Runs(o, actions) && After(o, actions) == t
  }

  lemma LeadsNowhere(o: State)
    ensures Leads(o, o)
  {
    assert Runs(o, []) && After(o, []) == o;
  }

  lemma {:induction false} OneMore(o: State, actions: seq<Action>, a: Action)
    requires Runs(o, actions) && Enabled(After(o, actions), a)
    ensures Runs(o, actions + [a]) && After(o, actions + [a]) == Do(After(o, actions), a)
    decreases |actions|
  {
    if actions == [] {
      assert [] + [a] == [a];
      assert [a][1..] == [];
    } else {
      assert (actions + [a])[1..] == actions[1..] + [a];
      OneMore(Do(o, actions[0]), actions[1..], a);
    }
  }

  lemma LeadsOn(o: State, s: State, a: Action, t: State)
    requires Leads(o, s) && Enabled(s, a) && t == Do(s, a)
    ensures Leads(o, t)
  {
    var actions :| Runs(o, actions) && After(o, actions) == s;
    OneMore(o, actions, a);
  }

  lemma EnvironmentLeads(o: State, s: State, e: EnvironmentAction, t: State)
    requires Leads(o, s) && EnvironmentEnabled(s, e) && t == EnvironmentStep(s, e)
    ensures Leads(o, t)
  {
    LeadsOn(o, s, Environment(e), t);
  }

  lemma VerifyLeads(o: State, s: State, pid: Pid, v: VerifierAction, t: State)
    requires Leads(o, s) && VerifierEnabled(s, pid, v) && t == VerifierStep(s, pid, v)
    ensures Leads(o, t)
  {
    LeadsOn(o, s, Verify(pid, v), t);
  }

  lemma PromoteLeads(o: State, s: State, pid: Pid, m: PromoterAction, t: State)
    requires Leads(o, s) && PromoterEnabled(s, pid, m) && t == PromoterStep(s, pid, m)
    ensures Leads(o, t)
  {
    LeadsOn(o, s, Promote(pid, m), t);
  }

  lemma SuperviseLeads(o: State, s: State, x: SupervisorAction, t: State)
    requires Leads(o, s) && SupervisorEnabled(s, x) && t == SupervisorStep(s, x)
    ensures Leads(o, t)
  {
    LeadsOn(o, s, Supervision(x), t);
  }

  // ------------------------------------------------------------------ a verification

  const PASSING := Checks(0, Some(0), true, 1)
  const NOTHING_YET := Checks(1, None, false, 0)

  function WithVerifier(s: State, pid: Pid, v: Verifier): State { s.(verifiers := s.verifiers[pid := v]) }

  lemma VerifierMoves(o: State, s: State, pid: Pid, v: Verifier, a: VerifierAction)
    requires Leads(o, WithVerifier(s, pid, v)) && !Fails(s, v, a)
    requires a in {Clone, DigestSuite, CopySuite, Judge(PASSING)} && v.at == Awaited(a)
    ensures Leads(o, WithVerifier(s, pid, MovedVerifier(s, v, a)))
  {
    var t := WithVerifier(s, pid, MovedVerifier(s, v, a));
    assert VerifierStep(WithVerifier(s, pid, v), pid, a) == t;
    VerifyLeads(o, WithVerifier(s, pid, v), pid, a, t);
  }

  /** The run has a branch, and its idea a suite. */
  predicate Verifiable(s: State, run: RunId) {
    run in s.runs && run in s.branches && s.runs[run].idea in s.suites
  }

  function Judging(s: State, run: RunId, at: VerifierAt): Verifier
    requires Verifiable(s, run)
  {
    var suite := s.suites[s.runs[run].idea];
    Verifier(run, at, s.runs[run], s.branches[run], Sha256(suite), Some(suite), PASSING, ERROR)
  }

  /** The receipt of a passing verification of the run as it stands. */
  function PassReceipt(s: State, run: RunId): Receipt
    requires Verifiable(s, run)
  {
    ReceiptOf(Judging(s, run, AtReceipt))
  }

  lemma PassReceiptIs(s: State, run: RunId)
    requires Verifiable(s, run)
    ensures var r := PassReceipt(s, run);
            && r.Full? && r.run == run && r.result == PASS && r.candidate == s.branches[run]
            && r.base == s.runs[run].base && r.spec == s.runs[run].spec
            && r.acceptance == SuiteDigest(s, s.runs[run].idea)
  {
    VerdictIs(s.runs[run].artifactType, PASSING);
  }

  function Verified(s: State, pid: Pid, run: RunId): State
    requires Verifiable(s, run)
  {
    s.(verifiers := s.verifiers[pid := Judging(s, run, AtTmp)], receipts := s.receipts[run := PassReceipt(s, run)],
       verifications := s.verifications + {VerificationOf(Judging(s, run, AtReceipt))})
  }

  lemma CloneMoves(o: State, s: State, pid: Pid, run: RunId)
    requires Verifiable(s, run) && Leads(o, WithVerifier(s, pid, NewVerifier(s, run)))
    ensures Leads(o, WithVerifier(s, pid,
              Verifier(run, AtCopy, s.runs[run], s.branches[run], SuiteDigest(s, s.runs[run].idea), None, NOTHING_YET, ERROR)))
  {
    VerifierMoves(o, s, pid, NewVerifier(s, run), Clone);
    VerifierMoves(o, s, pid, Verifier(run, AtDigest, s.runs[run], s.branches[run], NoFiles, None, NOTHING_YET, ERROR),
                  DigestSuite);
  }

  lemma JudgeMoves(o: State, s: State, pid: Pid, run: RunId)
    requires Verifiable(s, run) && Leads(o, WithVerifier(s, pid, NewVerifier(s, run)))
    ensures Leads(o, WithVerifier(s, pid, Judging(s, run, AtReceipt)))
  {
    CloneMoves(o, s, pid, run);
    var suite := s.suites[s.runs[run].idea];
    VerifierMoves(o, s, pid, Verifier(run, AtCopy, s.runs[run], s.branches[run], Sha256(suite), None, NOTHING_YET, ERROR),
                  CopySuite);
    VerifierMoves(o, s, pid, Verifier(run, AtJudge, s.runs[run], s.branches[run], Sha256(suite), Some(suite), NOTHING_YET, ERROR),
                  Judge(PASSING));
  }

  lemma ReceiptWritten(s: State, pid: Pid, run: RunId)
    requires Verifiable(s, run)
    ensures var u := WithVerifier(s, pid, Judging(s, run, AtReceipt));
            VerifierEnabled(u, pid, WriteReceipt) && VerifierStep(u, pid, WriteReceipt) == Verified(s, pid, run)
  {
    var v := Judging(s, run, AtReceipt);
    var u := WithVerifier(s, pid, v);
    assert MovedVerifier(u, v, WriteReceipt) == Judging(s, run, AtTmp);
    assert u.verifiers[pid := Judging(s, run, AtTmp)] == s.verifiers[pid := Judging(s, run, AtTmp)];
  }

  /** A verifier that has just been started can write a PASS receipt. */
  lemma VerifyFrom(o: State, s: State, pid: Pid, run: RunId)
    requires Verifiable(s, run) && Leads(o, WithVerifier(s, pid, NewVerifier(s, run)))
    ensures Leads(o, Verified(s, pid, run))
  {
    JudgeMoves(o, s, pid, run);
    var u := WithVerifier(s, pid, Judging(s, run, AtReceipt));
    ReceiptWritten(s, pid, run);
    VerifyLeads(o, u, pid, WriteReceipt, Verified(s, pid, run));
  }

  // ------------------------------------------------------------------ a promotion

  /** A promoter past the lock. */
  function WithPromoter(s: State, pid: Pid, p: Promoter): State {
    s.(promoters := s.promoters[pid := p], locks := s.locks + {p.run})
  }

  lemma PromoterMoves(o: State, s: State, pid: Pid, p: Promoter, m: PromoterAction)
    requires Leads(o, WithPromoter(s, pid, p)) && PromoterEnabled(WithPromoter(s, pid, p), pid, m)
    requires m in {ReadReceipt, CheckHead, CheckAncestry, CheckSpec, CheckSuite}
    ensures Leads(o, WithPromoter(s, pid, MovedPromoter(WithPromoter(s, pid, p), p, m)))
  {
    PromoterDo(s, pid, p, m);
    PromoteLeads(o, WithPromoter(s, pid, p), pid, m,
            WithPromoter(s, pid, MovedPromoter(WithPromoter(s, pid, p), p, m)));
  }

  lemma PromoterDo(s: State, pid: Pid, p: Promoter, m: PromoterAction)
    requires PromoterEnabled(WithPromoter(s, pid, p), pid, m)
    requires m in {ReadReceipt, CheckHead, CheckAncestry, CheckSpec, CheckSuite}
    ensures PromoterStep(WithPromoter(s, pid, p), pid, m)
         == WithPromoter(s, pid, MovedPromoter(WithPromoter(s, pid, p), p, m))
  {
    var u, p' := WithPromoter(s, pid, p), MovedPromoter(WithPromoter(s, pid, p), p, m);
    CheckKeepsRun(u, p, m);
    assert u.promoters[pid := p'] == s.promoters[pid := p'];
  }

  lemma CheckKeepsRun(s: State, p: Promoter, m: PromoterAction)
    requires m in {ReadReceipt, CheckHead, CheckAncestry, CheckSpec, CheckSuite}
    ensures MovedPromoter(s, p, m).run == p.run
  {}

  /** Everything is as the run's receipt says. */
  ghost predicate Matches(s: State, run: RunId, r: Receipt) {
    && run in s.receipts && s.receipts[run] == r && r.Full? && r.run == run && r.result == PASS
    && run in s.branches && s.branches[run] == r.candidate && Ancestor(s.dag, r.base, r.candidate)
    && run in s.specs && Sha256(s.specs[run]) == r.spec
    && run in s.runs && SuiteDigest(s, s.runs[run].idea) == r.acceptance
  }

  function Through(run: RunId, r: Receipt, at: PromoterAt): Promoter
    requires r.Full?
  {
    Promoter(run, at, r, r.spec, r.acceptance)
  }

  /** A promoter about to read that receipt can get to the merge. */
  lemma ReadToMerge(o: State, s: State, pid: Pid, p: Promoter, r: Receipt)
    requires Leads(o, WithPromoter(s, pid, p)) && p.at == AtReceiptRead && Matches(s, p.run, r)
    ensures Leads(o, WithPromoter(s, pid, Through(p.run, r, AtMerge)))
  {
    ReadToSpec(o, s, pid, p, r);
    PromoterMoves(o, s, pid, p.(at := AtSpec, receipt := r), CheckSpec);
    PromoterMoves(o, s, pid, p.(at := AtSuite, receipt := r, specSeen := r.spec), CheckSuite);
  }

  lemma ReadToSpec(o: State, s: State, pid: Pid, p: Promoter, r: Receipt)
    requires Leads(o, WithPromoter(s, pid, p)) && p.at == AtReceiptRead && Matches(s, p.run, r)
    ensures Leads(o, WithPromoter(s, pid, p.(at := AtSpec, receipt := r)))
  {
    PromoterMoves(o, s, pid, p, ReadReceipt);
    PromoterMoves(o, s, pid, p.(at := AtHead, receipt := r), CheckHead);
    PromoterMoves(o, s, pid, p.(at := AtAncestry, receipt := r), CheckAncestry);
  }

  /** main has advanced to a merge of the receipt's commit; the promoter stands at `at`. */
  function Merged(s: State, pid: Pid, run: RunId, r: Receipt, at: PromoterAt, status: map<RunId, seq<Status>>,
                  locks: set<RunId>): State
    requires r.Full?
  {
    s.(promoters := s.promoters[pid := Through(run, r, at)], dag := s.dag + [{s.head, r.candidate}], head := |s.dag|,
       merges := s.merges + [Merge(run, r.candidate, r.spec, r.acceptance, true)], status := status, locks := locks)
  }

  /** ... and the status says PROMOTED once more. */
  function Promoted(s: State, pid: Pid, run: RunId, r: Receipt): State
    requires r.Full?
  {
    Merged(s, pid, run, r, Left(0), Append(s, run, PROMOTED), s.locks)
  }

  lemma MergeMoves(o: State, s: State, pid: Pid, run: RunId, r: Receipt)
    requires r.Full? && Leads(o, WithPromoter(s, pid, Through(run, r, AtMerge))) && !Ancestor(s.dag, r.candidate, s.head)
    ensures Leads(o, Merged(s, pid, run, r, AtRecord(PROMOTED), s.status, s.locks + {run}))
  {
    var u := WithPromoter(s, pid, Through(run, r, AtMerge));
    var t := PromoterStep(u, pid, MergeExact(false));
    assert t.promoters == s.promoters[pid := Through(run, r, AtRecord(PROMOTED))];
    assert t == Merged(s, pid, run, r, AtRecord(PROMOTED), s.status, s.locks + {run});
    PromoteLeads(o, u, pid, MergeExact(false), t);
  }

  lemma RecordMoves(o: State, s: State, pid: Pid, run: RunId, r: Receipt)
    requires r.Full? && Leads(o, Merged(s, pid, run, r, AtRecord(PROMOTED), s.status, s.locks + {run}))
    ensures Leads(o, Merged(s, pid, run, r, AtRelease(0), Append(s, run, PROMOTED), s.locks + {run}))
  {
    StatusWritten(s, pid, run, r);
    PromoteLeads(o, Merged(s, pid, run, r, AtRecord(PROMOTED), s.status, s.locks + {run}), pid, RecordStatus,
                 Merged(s, pid, run, r, AtRelease(0), Append(s, run, PROMOTED), s.locks + {run}));
  }

  lemma StatusWritten(s: State, pid: Pid, run: RunId, r: Receipt)
    requires r.Full?
    ensures var u := Merged(s, pid, run, r, AtRecord(PROMOTED), s.status, s.locks + {run});
            PromoterEnabled(u, pid, RecordStatus)
            && PromoterStep(u, pid, RecordStatus)
               == Merged(s, pid, run, r, AtRelease(0), Append(s, run, PROMOTED), s.locks + {run})
  {
    var u := Merged(s, pid, run, r, AtRecord(PROMOTED), s.status, s.locks + {run});
    assert u.promoters[pid := Through(run, r, AtRelease(0))] == s.promoters[pid := Through(run, r, AtRelease(0))];
  }

  lemma ReleaseMoves(o: State, s: State, pid: Pid, run: RunId, r: Receipt, status: map<RunId, seq<Status>>)
    requires r.Full? && run !in s.locks && Leads(o, Merged(s, pid, run, r, AtRelease(0), status, s.locks + {run}))
    ensures Leads(o, Merged(s, pid, run, r, Left(0), status, s.locks))
  {
    var u := Merged(s, pid, run, r, AtRelease(0), status, s.locks + {run});
    var t := PromoterStep(u, pid, ReleaseLock);
    assert t.promoters == s.promoters[pid := Through(run, r, Left(0))];
    assert t.locks == s.locks;
    assert t == Merged(s, pid, run, r, Left(0), status, s.locks);
    PromoteLeads(o, u, pid, ReleaseLock, t);
  }

  /** A promoter about to read a receipt that matches, for a commit not yet on main, can advance main and record it. */
  lemma PromoteFrom(o: State, s: State, pid: Pid, p: Promoter, r: Receipt)
    requires Leads(o, WithPromoter(s, pid, p)) && p.at == AtReceiptRead && p.run !in s.locks
    requires Matches(s, p.run, r) && !Ancestor(s.dag, r.candidate, s.head)
    ensures Leads(o, Promoted(s, pid, p.run, r))
  {
    ReadToMerge(o, s, pid, p, r);
    MergeMoves(o, s, pid, p.run, r);
    RecordMoves(o, s, pid, p.run, r);
    ReleaseMoves(o, s, pid, p.run, r, Append(s, p.run, PROMOTED));
  }

  lemma LockMoves(o: State, s: State, pid: Pid)
    requires Leads(o, s) && pid in s.promoters && s.promoters[pid].at == AtLock && s.promoters[pid].run !in s.locks
    ensures Leads(o, WithPromoter(s, pid, s.promoters[pid].(at := AtReceiptRead)))
  {
    var t := WithPromoter(s, pid, s.promoters[pid].(at := AtReceiptRead));
    assert PromoterStep(s, pid, TakeLock) == t;
    PromoteLeads(o, s, pid, TakeLock, t);
  }

  // ------------------------------------------------------------------ a new commit, verified

  /** The builder restarts from the base and commits; spec and suite are in place. */
  function Rebuilt(s: State, run: RunId): State
    requires run in s.runs && s.runs[run].spec.Sha256?
  {
    s.(dag := s.dag + [{s.runs[run].base}], branches := s.branches[run := |s.dag|],
       specs := s.specs[run := s.runs[run].spec.content], suites := s.suites[s.runs[run].idea := "suite"])
  }

  lemma RebuildMoves(o: State, s: State, run: RunId)
    requires Leads(o, s) && run in s.runs && s.runs[run].spec.Sha256? && s.runs[run].base < |s.dag|
    ensures Leads(o, Rebuilt(s, run))
  {
    var base := s.runs[run].base;
    var s1 := s.(branches := s.branches[run := base]);
    EnvironmentLeads(o, s, MoveBranch(run, Some(base)), s1);
    var s2 := s.(dag := s.dag + [{base}], branches := s.branches[run := |s.dag|]);
    assert EnvironmentStep(s1, BuilderCommit(run)) == s2;
    EnvironmentLeads(o, s1, BuilderCommit(run), s2);
    var s3 := s2.(specs := s.specs[run := s.runs[run].spec.content]);
    EnvironmentLeads(o, s2, WriteSpec(run, Some(s.runs[run].spec.content)), s3);
    EnvironmentLeads(o, s3, WriteSuite(s.runs[run].idea, Some("suite")), Rebuilt(s, run));
  }

  function Prepared(s: State, run: RunId, vid: Pid): State
    requires run in s.runs && s.runs[run].spec.Sha256?
  {
    Verified(Rebuilt(s, run), vid, run)
  }

  lemma {:induction false} AncestorsAreEarlier(dag: Dag, a: Commit, b: Commit)
    ensures Ancestor(dag, a, b) ==> a <= b
    decreases b
  {
    if Ancestor(dag, a, b) && a != b {
      var p :| p in dag[b] && p < b && Ancestor(dag, a, p);
      AncestorsAreEarlier(dag, a, p);
    }
  }

  /** From any state, a run can get a PASS receipt for a commit that is not on main yet. */
  lemma PrepareMoves(o: State, s: State, run: RunId, vid: Pid)
    requires Leads(o, s) && run in s.runs && s.runs[run].spec.Sha256? && s.runs[run].base < |s.dag| && s.head < |s.dag|
    requires Fresh(s, vid)
    ensures Leads(o, Prepared(s, run, vid))
    ensures Matches(Prepared(s, run, vid), run, PassReceipt(Rebuilt(s, run), run))
    ensures !Ancestor(Prepared(s, run, vid).dag, |s.dag|, s.head)
  {
    RebuildMoves(o, s, run);
    var u := Rebuilt(s, run);
    EnvironmentLeads(o, u, StartVerifier(vid, run), WithVerifier(u, vid, NewVerifier(u, run)));
    VerifyFrom(o, u, vid, run);
    PassReceiptIs(u, run);
    assert Ancestor(u.dag, s.runs[run].base, s.runs[run].base) && s.runs[run].base in u.dag[|s.dag|];
    assert Ancestor(u.dag, s.runs[run].base, |s.dag|);
    AncestorsAreEarlier(u.dag, |s.dag|, s.head);
  }

  lemma {:induction false} Above(ids: set<Pid>) returns (b: Pid)
    ensures forall i :: i in ids ==> i < b
  {
    b := 0;
    if ids != {} {
      var i :| i in ids;
      var c := Above(ids - {i});
      b := if c > i then c else i + 1;
      forall j | j in ids ensures j < b { assert j == i || j in ids - {i}; }
    }
  }

  lemma FreshId(s: State) returns (pid: Pid)
    ensures Fresh(s, pid)
  {
    var taken := s.verifiers.Keys + s.promoters.Keys;
    if s.supervisor.Verifying? || s.supervisor.Promoting? {
      taken := taken + {s.supervisor.child};
      assert s.supervisor.child in taken;
    }
    assert s.supervisor.Verifying? || s.supervisor.Promoting? ==> s.supervisor.child in taken;
    pid := Above(taken);
    assert pid !in s.verifiers.Keys && pid !in s.promoters.Keys;
  }

  /** What every stretch below keeps: runs stay, commits stay, main has a head. */
  ghost predicate Grounded(s: State, run: RunId) {
    run in s.runs && s.runs[run].spec.Sha256? && s.runs[run].base < |s.dag| && s.head < |s.dag|
  }

  // ------------------------------------------------------------------ one run with one commit

  const R: RunId := "run_a"
  const I: IdeaId := "idea_a"
  const JSON: Run := Run(I, "web", 0, Sha256("spec"))

  /** One run with one commit of its builder. */
  const BUILT: State :=
    State([{}, {0}], 0, map[R := 1], map[R := JSON], map[R := "spec"], map[I := "A"], map[], map[R := [RUNNING]],
          {}, None, map[], map[], Idle, {}, [])

  lemma BuiltReachable()
    ensures Leads(START, BUILT) && Grounded(BUILT, R)
  {
    LeadsNowhere(START);
    var s1 := EnvironmentStep(START, CreateRun(R, I, "web", "spec"));
    EnvironmentLeads(START, START, CreateRun(R, I, "web", "spec"), s1);
    var s2 := EnvironmentStep(s1, WriteSuite(I, Some("A")));
    EnvironmentLeads(START, s1, WriteSuite(I, Some("A")), s2);
    assert EnvironmentStep(s2, BuilderCommit(R)) == BUILT;
    EnvironmentLeads(START, s2, BuilderCommit(R), BUILT);
  }

  lemma Started(o: State, s: State, pid: Pid) returns (t: State)
    requires Leads(o, s) && Fresh(s, pid) && MayPromote(s, R)
    ensures Leads(o, t) && t == s.(promoters := s.promoters[pid := NewPromoter(R)])
  {
    t := s.(promoters := s.promoters[pid := NewPromoter(R)]);
    EnvironmentLeads(o, s, StartPromoter(pid, R), t);
  }
}
