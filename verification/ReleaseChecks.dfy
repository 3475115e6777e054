/**
 * What the checks of a promoter and the steps of a verifier looked at, told from the whole execution: at which
 * moment each check ran, and what was true then.
 */
module ReleaseChecks {
  import opened Values
  import opened Release
  import opened ReleaseSafety

  // ------------------------------------------------------------------ moments of an execution

  lemma {:induction false} PrefixRuns(s: State, actions: seq<Action>, k: nat)
    requires Runs(s, actions) && k <= |actions|
    ensures Runs(s, actions[..k])
    ensures k < |actions| ==>
              Enabled(After(s, actions[..k]), actions[k])
              && Runs(s, actions[..k + 1]) && After(s, actions[..k + 1]) == Do(After(s, actions[..k]), actions[k])
    decreases |actions|
  {
    if k > 0 {
      PrefixRuns(Do(s, actions[0]), actions[1..], k - 1);
      assert actions[..k][1..] == actions[1..][..k - 1];
      if k < |actions| { assert actions[..k + 1][1..] == actions[1..][..k]; }
    } else if k < |actions| {
      assert actions[..1][1..] == [] && actions[..0] == [];
      assert Runs(Do(s, actions[0]), []);
    }
  }

  /** The states of the execution, from the first to the last. Sealed: one step at a time is opened. */
  ghost predicate Trace(actions: seq<Action>, ss: seq<State>) {
    && |ss| == |actions| + 1
    && forall mark {:trigger Unsealed(mark)} :: Unsealed(mark) ==>
         ss[0] == START && forall k :: 0 <= k < |actions| ==> Enabled(ss[k], actions[k]) && ss[k + 1] == Do(ss[k], actions[k])
  }

  lemma StepAt(actions: seq<Action>, ss: seq<State>, k: nat)
    requires Trace(actions, ss) && k < |actions|
    ensures Enabled(ss[k], actions[k]) && ss[k + 1] == Do(ss[k], actions[k])
  {
    assert Unsealed(true);
  }

  lemma StartsAt(actions: seq<Action>, ss: seq<State>)
    requires Trace(actions, ss)
    ensures ss[0] == START
  {
    assert Unsealed(true);
  }

  /** Every execution has its trace, which ends where the execution does. */
  lemma TraceOf(actions: seq<Action>) returns (ss: seq<State>)
    requires Runs(START, actions)
    ensures Trace(actions, ss) && ss[|actions|] == After(START, actions)
    ensures forall k :: 0 <= k <= |actions| ==> Runs(START, actions[..k]) && ss[k] == After(START, actions[..k])
  {
    forall k | 0 <= k <= |actions| ensures Runs(START, actions[..k]) { PrefixRuns(START, actions, k); }
    ss := seq(|actions| + 1, k requires 0 <= k <= |actions| && Runs(START, actions[..k]) => After(START, actions[..k]));
    forall k | 0 <= k < |actions| ensures Enabled(ss[k], actions[k]) && ss[k + 1] == Do(ss[k], actions[k]) {
      PrefixRuns(START, actions, k);
    }
    assert actions[..0] == [] && actions[..|actions|] == actions;
  }

  // ------------------------------------------------------------------ one check

  const CHECKS: set<PromoterAction> := {ReadReceipt, CheckHead, CheckAncestry, CheckSpec, CheckSuite}

  /** What a check of a promotion of `run` under receipt `r` asks of the moment it runs. */
  ghost predicate Holds(s: State, run: RunId, r: Receipt, m: PromoterAction) {
    r.Full? &&
    match m
    case ReadReceipt => run in s.receipts && s.receipts[run] == r && r.run == run && r.result == PASS
    case CheckHead => run in s.branches && s.branches[run] == r.candidate
    case CheckAncestry => Ancestor(s.dag, r.base, r.candidate)
    case CheckSpec => run in s.specs && Sha256(s.specs[run]) == r.spec
    case CheckSuite => run in s.runs && SuiteDigest(s, s.runs[run].idea) == r.acceptance
    case _ => true
  }

  /** The lines of the script in order; a promoter on its way out stands at none of them. */
  function Line(at: PromoterAt): nat {
    match at
    case AtReceiptRead => 1
    case AtHead => 2
    case AtAncestry => 3
    case AtSpec => 4
    case AtSuite => 5
    case AtMerge => 6
    case _ => 0
  }

  function LineOf(m: PromoterAction): nat {
    match m
    case ReadReceipt => 1
    case CheckHead => 2
    case CheckAncestry => 3
    case CheckSpec => 4
    case CheckSuite => 5
    case _ => 6
  }

  /** The receipt a check is made with: the one in place for the reading, the one read for the others. */
  ghost function Held(s: State, p: Promoter, m: PromoterAction): Receipt {
    if m.ReadReceipt? then if p.run in s.receipts then s.receipts[p.run] else Failed(p.run) else p.receipt
  }

  /**
   * A check lets the promoter go on to the next line if and only if what it asks for holds at that moment.
   * Otherwise the promoter is on its way out with an error, and in either case nothing else has changed.
   */
  lemma CheckIff(s: State, pid: Pid, m: PromoterAction)
    requires m in CHECKS && Enabled(s, Promote(pid, m))
    ensures var t, p := Do(s, Promote(pid, m)), s.promoters[pid];
            && t == s.(promoters := t.promoters) && t.promoters.Keys == s.promoters.Keys
            && (forall q :: q in s.promoters && q != pid ==> t.promoters[q] == s.promoters[q])
            && t.promoters[pid].run == p.run
            && Line(p.at) == LineOf(m)
            && if Holds(s, p.run, Held(s, p, m), m)
               then Line(t.promoters[pid].at) == LineOf(m) + 1 && t.promoters[pid].receipt == Held(s, p, m)
               else t.promoters[pid].at == AtRelease(if m.ReadReceipt? && p.run !in s.receipts then 3 else 1)
  {
    var t := Do(s, Promote(pid, m));
    assert t.promoters.Keys == s.promoters.Keys;
  }

  // ------------------------------------------------------------------ a promoter's past

  /** The same process, promoting `run`, lives from moment `k` to moment `n`; from `k + 1` on it holds `r`. */
  ghost predicate Lives(ss: seq<State>, k: nat, n: nat, pid: Pid, run: RunId, r: Receipt)
    requires n < |ss|
  {
    forall j :: k <= j <= n ==>
      pid in ss[j].promoters && ss[j].promoters[pid].run == run && (j > k ==> ss[j].promoters[pid].receipt == r)
  }

  /** At moment `k` that process made the check, and what it asks for held. */
  ghost predicate Made(actions: seq<Action>, ss: seq<State>, k: nat, n: nat, pid: Pid, run: RunId, r: Receipt, m: PromoterAction)
    requires |ss| == |actions| + 1 && n < |ss|
  {
    k < n && actions[k] == Promote(pid, m) && Holds(ss[k], run, r, m) && Lives(ss, k, n, pid, run, r)
  }

  /** By moment `n` the process has made the check. */
  ghost predicate HasMade(actions: seq<Action>, ss: seq<State>, n: nat, pid: Pid, run: RunId, r: Receipt, m: PromoterAction)
    requires |ss| == |actions| + 1 && n < |ss|
  {
    exists k :: Made(actions, ss, k, n, pid, run, r, m)
  }

  /** Whoever stands at a line has made every check above it. */
  ghost predicate AllMade(actions: seq<Action>, ss: seq<State>, n: nat)
    requires |ss| == |actions| + 1 && n < |ss|
  {
    forall pid, m :: pid in ss[n].promoters && m in CHECKS && Line(ss[n].promoters[pid].at) > LineOf(m) ==>
      HasMade(actions, ss, n, pid, ss[n].promoters[pid].run, ss[n].promoters[pid].receipt, m)
  }

  /** How one action moves one promoter: it is left alone, it is new, or it has made the step itself. */
  lemma OneStep(s: State, a: Action, pid: Pid)
    requires Enabled(s, a) && pid in Do(s, a).promoters
    ensures var t := Do(s, a);
            || (pid in s.promoters && t.promoters[pid] == s.promoters[pid])
            || (pid !in s.promoters && Line(t.promoters[pid].at) == 0)
            || (a.Promote? && a.pid == pid && pid in s.promoters && !a.move.KillPromoter?)
  {}

  /** A step that is no check leads to no line behind a check. */
  lemma NoCheck(s: State, pid: Pid, m: PromoterAction)
    requires Enabled(s, Promote(pid, m)) && m !in CHECKS && pid in Do(s, Promote(pid, m)).promoters
    ensures Line(Do(s, Promote(pid, m)).promoters[pid].at) <= 1
  {}

  /** What one action does to the checks a promoter has made: they stay, or it has made one more. */
  lemma LineStep(s: State, a: Action, t: State, pid: Pid, m: PromoterAction)
    requires Enabled(s, a) && t == Do(s, a) && m in CHECKS && pid in t.promoters && Line(t.promoters[pid].at) > LineOf(m)
    ensures || (pid in s.promoters && Line(s.promoters[pid].at) > LineOf(m)
                && s.promoters[pid].run == t.promoters[pid].run && s.promoters[pid].receipt == t.promoters[pid].receipt)
            || (a == Promote(pid, m) && pid in s.promoters && s.promoters[pid].run == t.promoters[pid].run
                && Holds(s, t.promoters[pid].run, t.promoters[pid].receipt, m))
  {
    OneStep(s, a, pid);
    if !(pid in s.promoters && t.promoters[pid] == s.promoters[pid]) {
      if a.move !in CHECKS { NoCheck(s, pid, a.move); } else { CheckIff(s, pid, a.move); }
    }
  }

  lemma MadeStep(actions: seq<Action>, ss: seq<State>, n: nat, pid: Pid, m: PromoterAction)
    requires Trace(actions, ss) && n < |actions| && AllMade(actions, ss, n) && m in CHECKS
    requires pid in ss[n + 1].promoters && Line(ss[n + 1].promoters[pid].at) > LineOf(m)
    ensures HasMade(actions, ss, n + 1, pid, ss[n + 1].promoters[pid].run, ss[n + 1].promoters[pid].receipt, m)
  {
    var p := ss[n + 1].promoters[pid];
    StepAt(actions, ss, n);
    LineStep(ss[n], actions[n], ss[n + 1], pid, m);
    if pid in ss[n].promoters && Line(ss[n].promoters[pid].at) > LineOf(m)
       && ss[n].promoters[pid].run == p.run && ss[n].promoters[pid].receipt == p.receipt {
      assert HasMade(actions, ss, n, pid, ss[n].promoters[pid].run, ss[n].promoters[pid].receipt, m);
      var k :| Made(actions, ss, k, n, pid, p.run, p.receipt, m);
      assert Made(actions, ss, k, n + 1, pid, p.run, p.receipt, m);
    } else {
      assert Made(actions, ss, n, n + 1, pid, p.run, p.receipt, m);
    }
  }

  lemma {:induction false} AlwaysMade(actions: seq<Action>, ss: seq<State>, n: nat)
    requires Trace(actions, ss) && n <= |actions|
    ensures AllMade(actions, ss, n)
  {
    if n == 0 {
      StartsAt(actions, ss);
    } else {
      AlwaysMade(actions, ss, n - 1);
      forall pid, m | pid in ss[n].promoters && m in CHECKS && Line(ss[n].promoters[pid].at) > LineOf(m)
        ensures HasMade(actions, ss, n, pid, ss[n].promoters[pid].run, ss[n].promoters[pid].receipt, m)
      {
        MadeStep(actions, ss, n - 1, pid, m);
      }
    }
  }

  lemma MergeStep(s: State, a: Action, t: State)
    requires Enabled(s, a) && t == Do(s, a)
    ensures || t.merges == s.merges
            || (a.Promote? && a.move == MergeExact(false) && a.pid in s.promoters && s.promoters[a.pid].at == AtMerge
                && s.promoters[a.pid].receipt.Full? && |t.merges| == |s.merges| + 1 && t.merges[..|s.merges|] == s.merges
                && t.merges[|s.merges|].run == s.promoters[a.pid].run
                && t.merges[|s.merges|].candidate == s.promoters[a.pid].receipt.candidate)
  {}

  /** The merges after `n` actions: every one was made by a promoter's merge step. */
  lemma {:induction false} MergeMade(actions: seq<Action>, ss: seq<State>, n: nat, i: nat) returns (k: nat, pid: Pid)
    requires Trace(actions, ss) && n <= |actions| && i < |ss[n].merges|
    ensures k < n && actions[k] == Promote(pid, MergeExact(false)) && pid in ss[k].promoters
    ensures ss[k].promoters[pid].at == AtMerge && ss[k].promoters[pid].receipt.Full?
    ensures ss[n].merges[i].run == ss[k].promoters[pid].run
            && ss[n].merges[i].candidate == ss[k].promoters[pid].receipt.candidate
  {
    if n == 0 {
      StartsAt(actions, ss);
      assert false;
    } else {
      StepAt(actions, ss, n - 1);
      MergeStep(ss[n - 1], actions[n - 1], ss[n]);
      if i < |ss[n - 1].merges| {
        k, pid := MergeMade(actions, ss, n - 1, i);
        assert ss[n].merges[i] == ss[n].merges[..|ss[n - 1].merges|][i];
      } else {
        k, pid := n - 1, actions[n - 1].pid;
      }
    }
  }

  lemma MergeChecked(actions: seq<Action>, ss: seq<State>, i: nat) returns (n: nat, pid: Pid, r: Receipt)
    requires Trace(actions, ss) && i < |ss[|actions|].merges|
    ensures n < |actions| && actions[n] == Promote(pid, MergeExact(false))
    ensures r.Full? && r.candidate == ss[|actions|].merges[i].candidate
    ensures forall m :: m in CHECKS ==> HasMade(actions, ss, n, pid, ss[|actions|].merges[i].run, r, m)
  {
    n, pid := MergeMade(actions, ss, |actions|, i);
    AlwaysMade(actions, ss, n);
    var p := ss[n].promoters[pid];
    r := p.receipt;
    assert forall m :: m in CHECKS ==> Line(p.at) > LineOf(m);
  }

  /**
   * For every merge of an execution: the very process that made it had, each at some earlier moment of its life,
   * read a PASS receipt of that run from its place, seen the run's branch at exactly the merged commit, seen that the
   * commit descends from the receipt's base, and seen the live spec and the live suite at the receipt's digests.
   */
  lemma EveryMergeWasChecked(actions: seq<Action>, i: nat) returns (ss: seq<State>, n: nat, pid: Pid, r: Receipt)
    requires Runs(START, actions) && i < |After(START, actions).merges|
    ensures |ss| == |actions| + 1
    ensures forall k :: 0 <= k <= |actions| ==> Runs(START, actions[..k]) && ss[k] == After(START, actions[..k])
    ensures n < |actions| && actions[n] == Promote(pid, MergeExact(false))
    ensures r.Full? && r.candidate == After(START, actions).merges[i].candidate
    ensures forall m :: m in CHECKS ==> HasMade(actions, ss, n, pid, After(START, actions).merges[i].run, r, m)
  {
    ss := TraceOf(actions);
    n, pid, r := MergeChecked(actions, ss, i);
  }

  // ------------------------------------------------------------------ a verifier's past

  function Place(at: VerifierAt): nat {
    match at
    case AtDigest => 1
    case AtCopy => 2
    case AtJudge => 3
    case AtReceipt => 4
    case _ => 0
  }

  datatype Look = Cloned | Hashed | Taken | Tested

  function PlaceOf(x: Look): nat {
    match x
    case Cloned => 0
    case Hashed => 1
    case Taken => 2
    case Tested => 3
  }

  predicate IsStep(x: Look, a: VerifierAction) {
    match x
    case Cloned => a.Clone?
    case Hashed => a.DigestSuite?
    case Taken => a.CopySuite?
    case Tested => a.Judge?
  }

  /** What a verifier has kept of the moment of that step: the commit, the digest, the copy, the checks' results. */
  predicate Saw(s: State, v: Verifier, x: Look, a: VerifierAction) {
    match x
    case Cloned => v.run in s.branches && s.branches[v.run] == v.candidate && v.json.idea in s.suites
    case Hashed => v.digest == SuiteDigest(s, v.json.idea)
    case Taken => v.copied == if v.json.idea in s.suites then Some(s.suites[v.json.idea]) else None
    case Tested => a.Judge? && v.checks == a.checks
  }

  predicate SameProcess(v: Verifier, w: Verifier) { v.run == w.run && v.json == w.json }

  predicate SameRecord(v: Verifier, w: Verifier, x: Look) {
    match x
    case Cloned => v.candidate == w.candidate
    case Hashed => v.digest == w.digest
    case Taken => v.copied == w.copied
    case Tested => v.checks == w.checks
  }

  /** At moment `k` the process took that step, and what it saw is what it has kept until moment `n`. */
  ghost predicate Looked(actions: seq<Action>, ss: seq<State>, k: nat, n: nat, pid: Pid, v: Verifier, x: Look)
    requires |ss| == |actions| + 1 && n < |ss|
  {
    && k < n && actions[k].Verify? && actions[k].vid == pid && IsStep(x, actions[k].step) && Saw(ss[k], v, x, actions[k].step)
    && forall j :: k <= j <= n ==>
         pid in ss[j].verifiers && SameProcess(ss[j].verifiers[pid], v) && (j > k ==> SameRecord(ss[j].verifiers[pid], v, x))
  }

  ghost predicate HasLooked(actions: seq<Action>, ss: seq<State>, n: nat, pid: Pid, v: Verifier, x: Look)
    requires |ss| == |actions| + 1 && n < |ss|
  {
    exists k :: Looked(actions, ss, k, n, pid, v, x)
  }

  ghost predicate AllLooked(actions: seq<Action>, ss: seq<State>, n: nat)
    requires |ss| == |actions| + 1 && n < |ss|
  {
    forall pid, x :: pid in ss[n].verifiers && Place(ss[n].verifiers[pid].at) > PlaceOf(x) ==>
      HasLooked(actions, ss, n, pid, ss[n].verifiers[pid], x)
  }

  /** How one action moves one verifier: it is left alone, it is new, or it has made the step itself. */
  lemma OneLook(s: State, a: Action, pid: Pid)
    requires Enabled(s, a) && pid in Do(s, a).verifiers
    ensures var t := Do(s, a);
            || (pid in s.verifiers && t.verifiers[pid] == s.verifiers[pid])
            || (pid !in s.verifiers && Place(t.verifiers[pid].at) == 0)
            || (a.Verify? && a.vid == pid && VerifierEnabled(s, pid, a.step) && !a.step.KillVerifier?
                && t == VerifierStep(s, pid, a.step))
  {}

  lemma OwnLook(s: State, a: VerifierAction, pid: Pid, x: Look)
    requires VerifierEnabled(s, pid, a) && !a.KillVerifier?
    requires Place(VerifierStep(s, pid, a).verifiers[pid].at) > PlaceOf(x)
    ensures var v, w := s.verifiers[pid], VerifierStep(s, pid, a).verifiers[pid];
            SameProcess(v, w) && ((Place(v.at) > PlaceOf(x) && SameRecord(v, w, x)) || (IsStep(x, a) && Saw(s, w, x, a)))
  {}

  lemma LookStep(s: State, a: Action, t: State, pid: Pid, x: Look)
    requires Enabled(s, a) && t == Do(s, a) && pid in t.verifiers && Place(t.verifiers[pid].at) > PlaceOf(x)
    ensures pid in s.verifiers && SameProcess(s.verifiers[pid], t.verifiers[pid])
    ensures || (Place(s.verifiers[pid].at) > PlaceOf(x) && SameRecord(s.verifiers[pid], t.verifiers[pid], x))
            || (a.Verify? && a.vid == pid && IsStep(x, a.step) && Saw(s, t.verifiers[pid], x, a.step))
  {
    OneLook(s, a, pid);
    if !(pid in s.verifiers && t.verifiers[pid] == s.verifiers[pid]) { OwnLook(s, a.step, pid, x); }
  }

  lemma LookedStep(actions: seq<Action>, ss: seq<State>, n: nat, pid: Pid, x: Look)
    requires Trace(actions, ss) && n < |actions| && AllLooked(actions, ss, n)
    requires pid in ss[n + 1].verifiers && Place(ss[n + 1].verifiers[pid].at) > PlaceOf(x)
    ensures HasLooked(actions, ss, n + 1, pid, ss[n + 1].verifiers[pid], x)
  {
    var w := ss[n + 1].verifiers[pid];
    StepAt(actions, ss, n);
    LookStep(ss[n], actions[n], ss[n + 1], pid, x);
    var v := ss[n].verifiers[pid];
    if Place(v.at) > PlaceOf(x) && SameRecord(v, w, x) {
      assert HasLooked(actions, ss, n, pid, v, x);
      LookStays(actions, ss, n, pid, v, w, x);
    } else {
      assert Looked(actions, ss, n, n + 1, pid, w, x);
    }
  }

  lemma LookStays(actions: seq<Action>, ss: seq<State>, n: nat, pid: Pid, v: Verifier, w: Verifier, x: Look)
    requires |ss| == |actions| + 1 && n < |actions| && HasLooked(actions, ss, n, pid, v, x)
    requires pid in ss[n + 1].verifiers && ss[n + 1].verifiers[pid] == w && SameProcess(v, w) && SameRecord(v, w, x)
    ensures HasLooked(actions, ss, n + 1, pid, w, x)
  {
    var k :| Looked(actions, ss, k, n, pid, v, x);
    assert Looked(actions, ss, k, n + 1, pid, w, x);
  }

  lemma {:induction false} AlwaysLooked(actions: seq<Action>, ss: seq<State>, n: nat)
    requires Trace(actions, ss) && n <= |actions|
    ensures AllLooked(actions, ss, n)
  {
    if n == 0 {
      StartsAt(actions, ss);
    } else {
      AlwaysLooked(actions, ss, n - 1);
      forall pid, x | pid in ss[n].verifiers && Place(ss[n].verifiers[pid].at) > PlaceOf(x)
        ensures HasLooked(actions, ss, n, pid, ss[n].verifiers[pid], x)
      {
        LookedStep(actions, ss, n - 1, pid, x);
      }
    }
  }

  lemma VerificationStep(s: State, a: Action, t: State, v: Verification)
    requires Enabled(s, a) && t == Do(s, a) && v in t.verifications
    ensures v in s.verifications
            || (a.Verify? && a.step == WriteReceipt && a.vid in s.verifiers && s.verifiers[a.vid].at == AtReceipt
                && v == VerificationOf(s.verifiers[a.vid]))
  {}

  lemma {:induction false} VerificationMade(actions: seq<Action>, ss: seq<State>, n: nat, v: Verification)
      returns (k: nat, pid: Pid)
    requires Trace(actions, ss) && n <= |actions| && v in ss[n].verifications
    ensures k < n && actions[k] == Verify(pid, WriteReceipt) && pid in ss[k].verifiers
    ensures ss[k].verifiers[pid].at == AtReceipt && v == VerificationOf(ss[k].verifiers[pid])
  {
    if n == 0 {
      StartsAt(actions, ss);
      assert false;
    } else {
      StepAt(actions, ss, n - 1);
      VerificationStep(ss[n - 1], actions[n - 1], ss[n], v);
      if v in ss[n - 1].verifications {
        k, pid := VerificationMade(actions, ss, n - 1, v);
      } else {
        k, pid := n - 1, actions[n - 1].vid;
      }
    }
  }

  /**
   * Every recorded verification is of what its own process met: the commit its run's branch stood at when it
   * cloned, the digest of the suite when it hashed it, the suite itself when it copied it, and the results of the
   * checks it ran, in one life.
   */
  lemma EveryVerificationWasMade(actions: seq<Action>, v: Verification) returns (ss: seq<State>, n: nat, pid: Pid, w: Verifier)
    requires Runs(START, actions) && v in After(START, actions).verifications
    ensures |ss| == |actions| + 1
    ensures forall k :: 0 <= k <= |actions| ==> Runs(START, actions[..k]) && ss[k] == After(START, actions[..k])
    ensures n < |actions| && actions[n] == Verify(pid, WriteReceipt)
    ensures w.run == v.run && w.candidate == v.candidate && w.digest == v.digest && w.copied == v.copied
            && w.checks == v.checks && w.json.artifactType == v.artifactType
    ensures forall x :: HasLooked(actions, ss, n, pid, w, x)
  {
    ss := TraceOf(actions);
    n, pid := VerificationMade(actions, ss, |actions|, v);
    w := ss[n].verifiers[pid];
    AlwaysLooked(actions, ss, n);
    forall x ensures HasLooked(actions, ss, n, pid, w, x) { assert Place(ss[n].verifiers[pid].at) > PlaceOf(x); }
  }
}
