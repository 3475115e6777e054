/**
 * Two promises of the release boundary that the scripts keep only under a condition: the
 * condition, and an execution that breaks the promise without it.
 */
module ReleaseScenarios {
  import opened Values
  import opened Release
  import opened ReleaseSafety
  import opened ReleaseMoves

  // ------------------------------------------------------------------ the suite that was run

  function CopyDigest(copied: Option<Content>): Digest { if copied.Some? then Sha256(copied.value) else NoFiles }

  /** The tests ran on the suite whose digest the receipt records. */
  ghost predicate RanRecordedSuite(v: Verification) { CopyDigest(v.copied) == v.digest }

  /**
   * The verifier hashes the suite and copies it in two steps: what is copied is what was hashed
   * exactly when the suite directory has the same contents at both moments.
   */
  lemma CopiedIffUnchanged(s: State, pid: Pid)
    requires VerifierEnabled(s, pid, CopySuite)
    ensures var v := MovedVerifier(s, s.verifiers[pid], CopySuite);
            RanRecordedSuite(VerificationOf(v)) <==> SuiteDigest(s, v.json.idea) == s.verifiers[pid].digest
  {}

  /** Nobody writes the suite of an idea while one of its verifiers stands between hashing and copying. */
  ghost predicate Steady(s: State, a: Action) {
    a.Environment? && a.env.WriteSuite? ==>
      forall pid :: pid in s.verifiers && s.verifiers[pid].at == AtCopy ==> s.verifiers[pid].json.idea != a.env.idea
  }

  ghost predicate CopyOk(s: State, v: Verifier) {
    && (v.at == AtCopy ==> v.digest == SuiteDigest(s, v.json.idea))
    && (v.at == AtJudge || v.at == AtReceipt ==> RanRecordedSuite(VerificationOf(v)))
  }

  ghost predicate CopiesOk(s: State) {
    && (forall pid :: pid in s.verifiers ==> CopyOk(s, s.verifiers[pid]))
    && (forall v :: v in s.verifications ==> RanRecordedSuite(v))
  }

  lemma VerifierCopies(s: State, pid: Pid, a: VerifierAction)
    requires CopiesOk(s) && VerifierEnabled(s, pid, a)
    ensures CopiesOk(VerifierStep(s, pid, a))
  {
    var v, t := s.verifiers[pid], VerifierStep(s, pid, a);
    assert CopyOk(s, v);
    if !a.KillVerifier? { assert CopyOk(t, t.verifiers[pid]); }
    forall q | q in t.verifiers && q != pid ensures CopyOk(t, t.verifiers[q]) { assert CopyOk(s, s.verifiers[q]); }
  }

  /** Nobody but a verifier changes what the verifiers have copied. */
  lemma OtherCopies(s: State, t: State)
    requires CopiesOk(s) && t.verifications == s.verifications
    requires forall q :: q in t.verifiers ==>
               t.verifiers[q].at == AtClone
               || (q in s.verifiers && t.verifiers[q] == s.verifiers[q]
                   && (t.verifiers[q].at == AtCopy ==>
                         SuiteDigest(t, t.verifiers[q].json.idea) == SuiteDigest(s, t.verifiers[q].json.idea)))
    ensures CopiesOk(t)
  {
    forall q | q in t.verifiers ensures CopyOk(t, t.verifiers[q]) {
      if q in s.verifiers { assert CopyOk(s, s.verifiers[q]); }
    }
  }

  lemma EnvironmentCopies(s: State, e: EnvironmentAction)
    requires CopiesOk(s) && EnvironmentEnabled(s, e) && Steady(s, Environment(e))
    ensures CopiesOk(EnvironmentStep(s, e))
  {
    OtherCopies(s, EnvironmentStep(s, e));
  }

  lemma StepCopies(s: State, a: Action)
    requires CopiesOk(s) && Enabled(s, a) && Steady(s, a)
    ensures CopiesOk(Do(s, a))
  {
    match a
    case Environment(e) => EnvironmentCopies(s, e);
    case Verify(pid, v) => VerifierCopies(s, pid, v);
    case Promote(pid, m) => OtherCopies(s, PromoterStep(s, pid, m));
    case Supervision(x) => OtherCopies(s, SupervisorStep(s, x));
  }

  ghost predicate SteadyRun(s: State, actions: seq<Action>)
    requires Runs(s, actions)
    decreases |actions|
  {
    actions == [] || (Steady(s, actions[0]) && SteadyRun(Do(s, actions[0]), actions[1..]))
  }

  lemma {:induction false} AlwaysCopied(s: State, actions: seq<Action>)
    requires CopiesOk(s) && Runs(s, actions) && SteadyRun(s, actions)
    ensures CopiesOk(After(s, actions))
    decreases |actions|
  {
    if actions != [] {
      StepCopies(s, actions[0]);
      AlwaysCopied(Do(s, actions[0]), actions[1..]);
    }
  }

  /** With steady suites every merged commit passed the very suite the promoter saw. */
  lemma SteadySuitesAreJudged(actions: seq<Action>, i: nat) returns (v: Verification)
    requires Runs(START, actions) && SteadyRun(START, actions) && i < |After(START, actions).merges|
    ensures var s := After(START, actions);
            v in s.verifications && Judged(s, v, s.merges[i]) && CopyDigest(v.copied) == s.merges[i].suite
  {
    OnlyVerifiedCommitsReachMain(actions, i);
    AlwaysCopied(START, actions);
    var s := After(START, actions);
    v :| v in s.verifications && Judged(s, v, s.merges[i]);
  }

  // ------------------------------------------------------------------ a suite swapped in between

  function OnSuite(suite: Content): State { BUILT.(suites := map[I := suite]) }

  /** The verifier has recorded the digest of suite A, but copied and ran suite B. */
  const SWAPPED: Verifier := Verifier(R, AtReceipt, JSON, 1, Sha256("A"), Some("B"), PASSING, ERROR)

  lemma SuiteMoves(suite: Content, v: Verifier, suite': Content)
    requires Leads(START, WithVerifier(OnSuite(suite), 0, v))
    ensures Leads(START, WithVerifier(OnSuite(suite'), 0, v))
  {
    var s, t := WithVerifier(OnSuite(suite), 0, v), WithVerifier(OnSuite(suite'), 0, v);
    assert EnvironmentStep(s, WriteSuite(I, Some(suite'))) == t;
    EnvironmentLeads(START, s, WriteSuite(I, Some(suite')), t);
  }

  const HASHED: Verifier := Verifier(R, AtCopy, JSON, 1, Sha256("A"), None, NOTHING_YET, ERROR)

  lemma HashedReached()
    ensures Leads(START, WithVerifier(OnSuite("A"), 0, HASHED))
  {
    BuiltReachable();
    assert BUILT == OnSuite("A");
    EnvironmentLeads(START, BUILT, StartVerifier(0, R), WithVerifier(BUILT, 0, NewVerifier(BUILT, R)));
    CloneMoves(START, BUILT, 0, R);
  }

  const COPIED := HASHED.(at := AtJudge, copied := Some("B"))

  lemma CopiedReached()
    ensures Leads(START, WithVerifier(OnSuite("B"), 0, COPIED))
  {
    HashedReached();
    SuiteMoves("A", HASHED, "B");
    VerifierMoves(START, OnSuite("B"), 0, HASHED, CopySuite);
  }

  lemma SwappedReached()
    ensures Leads(START, WithVerifier(OnSuite("A"), 0, SWAPPED))
  {
    CopiedReached();
    SuiteMoves("B", COPIED, "A");
    VerifierMoves(START, OnSuite("A"), 0, COPIED, Judge(PASSING));
  }

  function Receipted(): State {
    BUILT.(verifiers := map[0 := SWAPPED.(at := AtTmp)], receipts := map[R := ReceiptOf(SWAPPED)],
           verifications := {VerificationOf(SWAPPED)})
  }

  lemma ReceiptedReached()
    ensures Leads(START, Receipted()) && Matches(Receipted(), R, ReceiptOf(SWAPPED))
  {
    SwappedReached();
    VerdictIs("web", PASSING);
    assert BUILT == OnSuite("A");
    var s := WithVerifier(BUILT, 0, SWAPPED);
    assert VerifierStep(s, 0, WriteReceipt) == Receipted();
    VerifyLeads(START, s, 0, WriteReceipt, Receipted());
    assert Ancestor([{}, {0}], 0, 0) && 0 in [{}, {0}][1];
    assert Ancestor([{}, {0}], 0, 1);
  }

  /** An execution whose merged commit was tested on suite B although every recorded digest is of suite A. */
  lemma SuiteCanBeSwapped() returns (s: State, v: Verification)
    ensures Leads(START, s) && |s.merges| == 1 && v in s.verifications && Judged(s, v, s.merges[0])
    ensures s.merges[0].suite == Sha256("A") && v.copied == Some("B") && !RanRecordedSuite(v)
  {
    var r := ReceiptOf(SWAPPED);
    ReceiptedReached();
    var u := Started(START, Receipted(), 1);
    LockMoves(START, u, 1);
    ReadToMerge(START, u, 1, NewPromoter(R).(at := AtReceiptRead), r);
    AncestorsAreEarlier(u.dag, 1, 0);
    MergeMoves(START, u, 1, R, r);
    s := Merged(u, 1, R, r, AtRecord(PROMOTED), u.status, u.locks + {R});
    v := VerificationOf(SWAPPED);
  }
}
