/**
 * Who breaks the append lock, and when: only a call that has looked and found no owner file, or one older than five
 * seconds; and what a break costs the call that has just made the directory.
 */
module AppendLockBreaks {
  import opened Values
  import opened AppendLock

  /** There is no owner file, or it is more than five seconds old. */
  predicate OldOrMissing(s: State) {
    match s.lock
    case Free => true
    case Bare => true
    case Owned(_, since) => s.now > since + 5000
  }

  /** Looking sends a waiter to break the lock exactly then, and otherwise back to try again. */
  lemma LookIs(s: State, p: Pid)
    requires Enabled(s, Stat(p))
    ensures var t := Do(s, Stat(p));
            && (OldOrMissing(s) <==> t.calls[p].phase == Breaking) && (!OldOrMissing(s) <==> t.calls[p].phase == Trying)
            && t == s.(calls := t.calls) && t.calls.Keys == s.calls.Keys
            && forall q :: q in s.calls && q != p ==> t.calls[q] == s.calls[q]
  {}

  ghost predicate NoStep(acts: seq<Action>, p: Pid) {
    forall i :: 0 <= i < |acts| ==> acts[i].Pass? || acts[i].p != p
  }

  /** In the run the call looked, found the lock old or without an owner, and has not moved since. */
  ghost predicate FoundOld(s: State, acts: seq<Action>, p: Pid)
    requires Runs(s, acts)
    decreases |acts|
  {
    acts != []
    && ((acts[0] == Stat(p) && OldOrMissing(s) && NoStep(acts[1..], p)) || FoundOld(Do(s, acts[0]), acts[1..], p))
  }

  lemma {:induction false} BreakersLooked(s: State, acts: seq<Action>, p: Pid)
    requires Runs(s, acts) && At(After(s, acts), p, Breaking)
    ensures FoundOld(s, acts, p) || (At(s, p, Breaking) && NoStep(acts, p))
    decreases |acts|
  {
    if acts != [] {
      var t := Do(s, acts[0]);
      BreakersLooked(t, acts[1..], p);
      if !FoundOld(t, acts[1..], p) {
        if acts[0].Pass? || acts[0].p != p {
          assert forall i :: 0 < i < |acts| ==> acts[i] == acts[1..][i - 1];
        } else if acts[0].Stat? {
          LookIs(s, p);
        }
      }
    }
  }

  /** In every execution a call that is about to break the lock has looked, and has done nothing since. */
  lemma EveryBreakWasLooked(now: int, acts: seq<Action>, p: Pid)
    requires Runs(Initial(now), acts) && Enabled(After(Initial(now), acts), BreakLock(p))
    ensures FoundOld(Initial(now), acts, p)
  {
    BreakersLooked(Initial(now), acts, p);
  }

  /** A call whose directory is gone before it writes its owner file fails: it throws, and its event is not written. */
  lemma OwnerFails(s: State, p: Pid)
    requires Enabled(s, WriteOwner(p))
    ensures var t := Do(s, WriteOwner(p));
            && (t.calls[p].phase.Failed? <==> s.lock.Free?)
            && (t.calls[p].phase == Writing(0) <==> !s.lock.Free?)
            && t.file == s.file
            && (!s.lock.Free? ==> t.lock == Owned(p, s.now) && t.order == s.order + [p])
  {}

  /** It happens: a waiter looks between the two steps of acquiring. */
  lemma WaiterFailsTheOwner() returns (s: State)
    ensures Reachable(s) && At(s, 0, Failed) && s.file == ""
  {
    BrokenAtOnce();
    Step(Pair(Made, Trying, Free, "", []), WriteOwner(0), Pair(Failed, Trying, Free, "", []));
    s := Pair(Failed, Trying, Free, "", []);
  }

  /** A call that has neither ended nor crashed can take its next step. */
  lemma CallsMayAct(s: State, p: Pid)
    requires p in s.calls && Live(s.calls[p].phase)
    requires s.calls[p].phase.Writing? ==> s.calls[p].phase.done <= |s.calls[p].line| + 1
    ensures exists a: Action :: !a.Crash? && !a.Pass? && !a.Begin? && a.p == p && Enabled(s, a)
  {
    var a := match s.calls[p].phase
             case Trying => Mkdir(p)
             case Blocked => Stat(p)
             case Breaking => BreakLock(p)
             case Made => WriteOwner(p)
             case Writing(k) => if k == |s.calls[p].line| + 1 then Finish(p) else Append(p, 1)
             case Leaving => ReadOwner(p)
             case _ => Remove(p);
    assert Enabled(s, a) && a.p == p;
  }
}
