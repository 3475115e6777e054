/**
 * The append lock of the JSONL store: any number of processes, each step between two awaits atomic.
 * The lock is a directory with an owner file; waiters break it when the owner file is old or missing.
 */
module AppendLock {
  import opened Values

  // One append call: its nonce is its identity.
  type Pid = nat

  const STALE := 5000

  /** The lock directory: absent, present without an owner file, or with one written at a time. */
  datatype Lock = Free | Bare | Owned(owner: Pid, since: int)

  /**
   * Where a call stands. `Writing(k)`: k characters of its line are in the file. `Crashed` remembers
   * how much was written, if writing had begun.
   */
  datatype Phase =
    | Trying | Blocked | Breaking | Made
    | Writing(done: nat) | Leaving | Removing
    | Acked | Failed | Crashed(wrote: Option<nat>)

  datatype Call = Call(line: string, phase: Phase)

  /** `order` lists the calls in the order in which they took the lock. */
  datatype State = State(calls: map<Pid, Call>, lock: Lock, file: string, now: int, order: seq<Pid>)

  function Initial(now: int): State { State(map[], Free, "", now, []) }

  function Text(c: Call): string { c.line + "\n" }

  datatype Action =
    | Begin(p: Pid, line: string)
    | Mkdir(p: Pid)
    | Stat(p: Pid)
    | BreakLock(p: Pid)
    | WriteOwner(p: Pid)
    | Append(p: Pid, count: nat)
    | Finish(p: Pid)
    | ReadOwner(p: Pid)
    | Remove(p: Pid)
    | Crash(p: Pid)
    | Pass(time: nat)

  predicate At(s: State, p: Pid, ph: Phase) { p in s.calls && s.calls[p].phase == ph }

  predicate Live(ph: Phase) { !ph.Acked? && !ph.Failed? && !ph.Crashed? }

  /** A line of the log: JSON text, so not empty, without a newline and not ending in a carriage return. */
  predicate IsLine(l: string) { l != "" && l[|l| - 1] != '\r' && '\n' !in l }

  predicate Enabled(s: State, a: Action) {
    match a
    case Begin(p, line) => p !in s.calls && IsLine(line)
    case Mkdir(p) => At(s, p, Trying)
    case Stat(p) => At(s, p, Blocked)
    case BreakLock(p) => At(s, p, Breaking)
    case WriteOwner(p) => At(s, p, Made)
    case Append(p, n) =>
      n > 0 && p in s.calls && s.calls[p].phase.Writing? && s.calls[p].phase.done + n <= |Text(s.calls[p])|
    case Finish(p) => p in s.calls && At(s, p, Writing(|Text(s.calls[p])|))
    case ReadOwner(p) => At(s, p, Leaving)
    case Remove(p) => At(s, p, Removing)
    case Crash(p) => p in s.calls && Live(s.calls[p].phase)
    case Pass(_) => true
  }

  function Moved(s: State, p: Pid, ph: Phase): State
    requires p in s.calls
  {
    s.(calls := s.calls[p := s.calls[p].(phase := ph)])
  }

  /** A missing owner file, or a missing directory, counts as written at time 0: stale at once. */
  predicate LooksStale(s: State) { !s.lock.Owned? || s.now - s.lock.since > STALE }

  function Wrote(ph: Phase, length: nat): Option<nat> {
    match ph
    case Writing(k) => Some(k)
    case Leaving => Some(length)
    case Removing => Some(length)
    case Acked => Some(length)
    case Crashed(w) => w
    case _ => None
  }

  function Do(s: State, a: Action): State
    requires Enabled(s, a)
  {
    match a
    case Begin(p, line) => s.(calls := s.calls[p := Call(line, Trying)])
    case Mkdir(p) => if s.lock.Free? then Moved(s.(lock := Bare), p, Made) else Moved(s, p, Blocked)
    case Stat(p) => Moved(s, p, if LooksStale(s) then Breaking else Trying)
    case BreakLock(p) => Moved(s.(lock := Free), p, Trying)
    case WriteOwner(p) =>
      if s.lock.Free? then Moved(s, p, Failed)
      else Moved(s.(lock := Owned(p, s.now), order := s.order + [p]), p, Writing(0))
    case Append(p, n) =>
      var k := s.calls[p].phase.done;
      Moved(s.(file := s.file + Text(s.calls[p])[k..k + n]), p, Writing(k + n))
    case Finish(p) => Moved(s, p, Leaving)
    case ReadOwner(p) => Moved(s, p, if s.lock.Owned? && s.lock.owner == p then Removing else Acked)
    case Remove(p) => Moved(s.(lock := Free), p, Acked)
    case Crash(p) => Moved(s, p, Crashed(Wrote(s.calls[p].phase, |Text(s.calls[p])|)))
    case Pass(d) => s.(now := s.now + d)
  }

  // ------------------------------------------------------------------ the invariant

  /** Between taking the lock and giving it back. */
  predicate Inside(ph: Phase) { ph.Made? || ph.Writing? || ph.Leaving? || ph.Removing? }

  ghost predicate Insider(s: State, p: Pid) { p in s.calls && Inside(s.calls[p].phase) }

  ghost predicate Exclusive(s: State) {
    forall p, q :: Insider(s, p) && Insider(s, q) ==> p == q
  }

  /** The lock is the insider's: bare while it has made the directory, and owned by it from then on. */
  ghost predicate Held(s: State) {
    forall p :: Insider(s, p) ==>
      if s.calls[p].phase.Made? then s.lock.Bare? else s.lock.Owned? && s.lock.owner == p
  }

  /** What a call has put into the file so far. */
  function Share(c: Call): string {
    var w := Wrote(c.phase, |Text(c)|);
    if w.Some? && w.value <= |Text(c)| then Text(c)[..w.value] else ""
  }

  function Shares(calls: map<Pid, Call>, order: seq<Pid>): string {
    if order == [] then ""
    else
      var p := order[|order| - 1];
      Shares(calls, order[..|order| - 1]) + if p in calls then Share(calls[p]) else ""
  }

  /** The calls that took the lock are exactly those that got as far as writing; the writer is the last of them. */
  ghost predicate Ordered(s: State) {
    && NoRepeats(s.order)
    && (forall p :: p in s.order <==> p in s.calls && Wrote(s.calls[p].phase, |Text(s.calls[p])|).Some?)
    && (forall p :: p in s.calls && s.calls[p].phase.Writing? ==>
          s.calls[p].phase.done <= |Text(s.calls[p])| && s.order != [] && s.order[|s.order| - 1] == p)
  }

  /** The file is what the calls wrote, call by call in lock order: nothing interleaves. */
  ghost predicate Whole(s: State) { s.file == Shares(s.calls, s.order) }

  ghost predicate NoneFailed(s: State) { forall p :: p in s.calls ==> !s.calls[p].phase.Failed? && IsLine(s.calls[p].line) }

  ghost predicate Inv(s: State) { Exclusive(s) && Held(s) && Ordered(s) && Whole(s) && NoneFailed(s) }

  /** Breaking the lock is quiet when no call is inside. */
  ghost predicate Quiet(s: State, a: Action) { a.BreakLock? ==> forall p :: !Insider(s, p) }

  lemma InitialInv(now: int)
    ensures Inv(Initial(now))
  {}

  lemma {:induction false} SharesUnchanged(calls: map<Pid, Call>, order: seq<Pid>, p: Pid, c: Call)
    requires p !in order || (p in calls && Share(calls[p]) == Share(c))
    ensures Shares(calls[p := c], order) == Shares(calls, order)
  {
    if order != [] {
      SharesUnchanged(calls, order[..|order| - 1], p, c);
      assert order[|order| - 1] in order;
    }
  }

  /** The call an action belongs to, and where it leaves that call. */
  function PhaseAfter(s: State, a: Action): Phase
    requires Enabled(s, a) && !a.Begin? && !a.Pass?
  {
    Do(s, a).calls[a.p].phase
  }

  lemma StepIsLocal(s: State, a: Action)
    requires Enabled(s, a) && !a.Begin? && !a.Pass?
    ensures a.p in s.calls
    ensures Do(s, a).calls == s.calls[a.p := s.calls[a.p].(phase := PhaseAfter(s, a))]
    ensures forall q :: q != a.p ==> (Insider(Do(s, a), q) <==> Insider(s, q))
  {}

  /** Which steps enter and leave, and what they do to the lock. */
  lemma StepAtLock(s: State, a: Action)
    requires Inv(s) && Enabled(s, a) && Quiet(s, a) && !a.Begin? && !a.Pass?
    ensures var t := Do(s, a);
            && t.calls[a.p].line == s.calls[a.p].line && !t.calls[a.p].phase.Failed?
            && (Insider(t, a.p) && !Insider(s, a.p) ==> s.lock.Free?)
            && (Insider(t, a.p) ==>
                  if t.calls[a.p].phase.Made? then t.lock.Bare? else t.lock.Owned? && t.lock.owner == a.p)
            && (t.lock != s.lock && !Insider(s, a.p) ==> s.lock.Free? || forall p :: !Insider(s, p))
  {
    assert Insider(s, a.p) <==> Inside(s.calls[a.p].phase);
  }

  lemma ExclusiveStep(s: State, a: Action)
    requires Inv(s) && Enabled(s, a) && Quiet(s, a)
    ensures Exclusive(Do(s, a)) && Held(Do(s, a)) && NoneFailed(Do(s, a))
  {
    var t := Do(s, a);
    if a.Begin? || a.Pass? {
      assert forall q :: Insider(t, q) <==> Insider(s, q);
    } else {
      StepIsLocal(s, a);
      StepAtLock(s, a);
      forall p, q | Insider(t, p) && Insider(t, q) ensures p == q {
        assert p != a.p ==> Insider(s, p);
        assert q != a.p ==> Insider(s, q);
      }
      forall p | Insider(t, p) && p != a.p
        ensures if t.calls[p].phase.Made? then t.lock.Bare? else t.lock.Owned? && t.lock.owner == p
      {
        assert Insider(s, p);
      }
    }
  }

  lemma OrderedMove(s: State, t: State, p: Pid)
    requires Ordered(s) && p in s.calls && p in t.calls && t.calls == s.calls[p := t.calls[p]] && t.order == s.order
    requires t.calls[p].line == s.calls[p].line
    requires Wrote(t.calls[p].phase, |Text(s.calls[p])|).Some? == Wrote(s.calls[p].phase, |Text(s.calls[p])|).Some?
    requires t.calls[p].phase.Writing? ==> s.calls[p].phase.Writing? && t.calls[p].phase.done <= |Text(s.calls[p])|
    ensures Ordered(t)
  {
    assert Text(t.calls[p]) == Text(s.calls[p]);
  }

  lemma OrderedStep(s: State, a: Action)
    requires Inv(s) && Enabled(s, a) && Quiet(s, a)
    ensures Ordered(Do(s, a))
  {
    var t := Do(s, a);
    match a
    case Pass(_) =>
    case Begin(p, line) => OrderedBegin(s, p, line);
    case WriteOwner(p) => OrderedOwner(s, p);
    case Append(p, n) => OrderedAppend(s, p, n);
    case _ => OrderedOther(s, a);
  }

  lemma OrderedAppend(s: State, p: Pid, n: nat)
    requires Inv(s) && Enabled(s, Append(p, n))
    ensures Ordered(Do(s, Append(p, n)))
  {
    OrderedMove(s, Do(s, Append(p, n)), p);
  }

  lemma OrderedOther(s: State, a: Action)
    requires Inv(s) && Enabled(s, a) && !a.Pass? && !a.Begin? && !a.WriteOwner? && !a.Append?
    ensures Ordered(Do(s, a))
  {
    assert a.p in s.calls && Do(s, a).order == s.order;
    OrderedMove(s, Do(s, a), a.p);
  }

  lemma OrderedBegin(s: State, p: Pid, line: string)
    requires Ordered(s) && p !in s.calls
    ensures Ordered(s.(calls := s.calls[p := Call(line, Trying)]))
  {}

  lemma OrderedOwner(s: State, p: Pid)
    requires Inv(s) && At(s, p, Made)
    ensures Ordered(Do(s, WriteOwner(p)))
  {
    var t := Do(s, WriteOwner(p));
    assert Insider(s, p) && s.lock.Bare?;
    NoRepeatsSnoc(s.order, p);
    forall q | q in t.calls && t.calls[q].phase.Writing? ensures q == p {
      assert q != p ==> Insider(s, q);
    }
    assert forall q :: q in t.order <==> q in s.order || q == p;
  }

  /** The writer's share grows at the end of the file. */
  lemma AppendShare(s: State, p: Pid, n: nat)
    requires Inv(s) && Enabled(s, Append(p, n))
    ensures Whole(Do(s, Append(p, n)))
  {
    var t := Do(s, Append(p, n));
    var last, k := |s.order| - 1, s.calls[p].phase.done;
    assert s.order == s.order[..last] + [p];
    NoRepeatsSnoc(s.order[..last], p);
    SharesUnchanged(s.calls, s.order[..last], p, t.calls[p]);
    assert Text(t.calls[p]) == Text(s.calls[p]);
    assert Share(t.calls[p]) == Share(s.calls[p]) + Text(s.calls[p])[k..k + n];
  }

  lemma OwnerShare(s: State, p: Pid)
    requires Inv(s) && At(s, p, Made)
    ensures Whole(Do(s, WriteOwner(p)))
  {
    var t := Do(s, WriteOwner(p));
    assert Insider(s, p) && s.lock.Bare?;
    assert p !in s.order;
    SharesUnchanged(s.calls, s.order, p, t.calls[p]);
    assert t.order[..|t.order| - 1] == s.order;
    assert Share(t.calls[p]) == "";
  }

  lemma WholeStep(s: State, a: Action)
    requires Inv(s) && Enabled(s, a) && Quiet(s, a)
    ensures Whole(Do(s, a))
  {
    var t := Do(s, a);
    match a
    case Pass(_) =>
    case Begin(p, line) => SharesUnchanged(s.calls, s.order, p, t.calls[p]);
    case WriteOwner(p) => OwnerShare(s, p);
    case Append(p, n) => AppendShare(s, p, n);
    case _ => ShareMove(s, a);
  }

  lemma ShareMove(s: State, a: Action)
    requires Inv(s) && Enabled(s, a) && !a.Pass? && !a.Begin? && !a.WriteOwner? && !a.Append?
    ensures Whole(Do(s, a))
  {
    var t := Do(s, a);
    assert Text(t.calls[a.p]) == Text(s.calls[a.p]);
    assert Wrote(s.calls[a.p].phase, |Text(s.calls[a.p])|).None? ==> Share(t.calls[a.p]) == "" == Share(s.calls[a.p]);
    SharesUnchanged(s.calls, s.order, a.p, t.calls[a.p]);
  }

  lemma StepInv(s: State, a: Action)
    requires Inv(s) && Enabled(s, a) && Quiet(s, a)
    ensures Inv(Do(s, a))
  {
    ExclusiveStep(s, a);
    OrderedStep(s, a);
    WholeStep(s, a);
  }

  /**
   * When a break is quiet: the waiter looks and breaks at once, nobody is between making the directory and
   * writing the owner file, and no owner file of a call inside is older than the limit.
   */
  lemma PromptBreakIsQuiet(s: State, p: Pid)
    requires Inv(s) && At(s, p, Blocked)
    requires forall q :: Insider(s, q) ==> !s.calls[q].phase.Made? && (s.lock.Owned? ==> s.now - s.lock.since <= STALE)
    ensures var t := Do(s, Stat(p));
            At(t, p, Trying) || (At(t, p, Breaking) && Quiet(t, BreakLock(p)))
  {
    var t := Do(s, Stat(p));
    StepIsLocal(s, Stat(p));
    forall q | Insider(t, q) ensures !LooksStale(s) { assert q != p ==> Insider(s, q); }
  }

  /** A call gives back its own lock, and nobody else's; under the invariant it always finds it there. */
  lemma ReleasesOwnLock(s: State, p: Pid)
    requires Inv(s)
    ensures At(s, p, Removing) ==> s.lock.Owned? && s.lock.owner == p
    ensures At(s, p, Leaving) ==> At(Do(s, ReadOwner(p)), p, Removing)
    ensures At(s, p, Made) ==> At(Do(s, WriteOwner(p)), p, Writing(0))
  {
    assert At(s, p, Removing) || At(s, p, Leaving) || At(s, p, Made) ==> Insider(s, p);
  }

  lemma {:induction false} SharesGrow(s: State, a: Action)
    requires Inv(s) && Enabled(s, a) && Quiet(s, a)
    ensures s.file <= Do(s, a).file && s.order <= Do(s, a).order
  {}

  // ------------------------------------------------------------------ executions

  ghost predicate Runs(s: State, acts: seq<Action>)
    decreases |acts|
  {
    acts == [] || (Enabled(s, acts[0]) && Runs(Do(s, acts[0]), acts[1..]))
  }

  ghost function After(s: State, acts: seq<Action>): State
    requires Runs(s, acts)
    decreases |acts|
  {
    if acts == [] then s else After(Do(s, acts[0]), acts[1..])
  }

  /** No lock is broken while a call is inside. */
  ghost predicate QuietRun(s: State, acts: seq<Action>)
    requires Runs(s, acts)
    decreases |acts|
  {
    acts == [] || (Quiet(s, acts[0]) && QuietRun(Do(s, acts[0]), acts[1..]))
  }

  /** In every quiet execution the invariant holds throughout, and the file only grows. */
  lemma {:induction false} AlwaysInv(s: State, acts: seq<Action>)
    requires Inv(s) && Runs(s, acts) && QuietRun(s, acts)
    ensures Inv(After(s, acts)) && s.file <= After(s, acts).file && s.order <= After(s, acts).order
    decreases |acts|
  {
    if acts != [] {
      StepInv(s, acts[0]);
      SharesGrow(s, acts[0]);
      AlwaysInv(Do(s, acts[0]), acts[1..]);
    }
  }

  lemma MutualExclusion(now: int, acts: seq<Action>)
    requires Runs(Initial(now), acts) && QuietRun(Initial(now), acts)
    ensures forall p, q :: Insider(After(Initial(now), acts), p) && Insider(After(Initial(now), acts), q) ==> p == q
    ensures forall p :: p in After(Initial(now), acts).calls ==> !After(Initial(now), acts).calls[p].phase.Failed?
  {
    InitialInv(now);
    AlwaysInv(Initial(now), acts);
  }

  // ------------------------------------------------------------------ when a break is safe

  ghost predicate BreakFree(acts: seq<Action>) { forall a :: a in acts ==> !a.BreakLock? }

  lemma {:induction false} BreakFreeIsQuiet(s: State, acts: seq<Action>)
    requires Runs(s, acts) && BreakFree(acts)
    ensures QuietRun(s, acts)
    decreases |acts|
  {
    if acts != [] {
      assert acts[0] in acts && forall a :: a in acts[1..] ==> a in acts;
      BreakFreeIsQuiet(Do(s, acts[0]), acts[1..]);
    }
  }

  lemma RunsOne(s: State, a: Action)
    requires Enabled(s, a)
    ensures Runs(s, [a]) && After(s, [a]) == Do(s, a)
  {
    assert [a][0] == a && [a][1..] == [];
    assert Runs(Do(s, a), []);
  }

  /**
   * The condition is exact: a break is quiet if and only if, as long as nobody breaks the lock again,
   * at most one call is ever inside.
   */
  lemma QuietIffExclusiveAfter(s: State, p: Pid)
    requires Inv(s) && At(s, p, Breaking)
    ensures var t := Do(s, BreakLock(p));
            Quiet(s, BreakLock(p)) <==> forall acts :: Runs(t, acts) && BreakFree(acts) ==> Exclusive(After(t, acts))
  {
    var t := Do(s, BreakLock(p));
    if Quiet(s, BreakLock(p)) {
      StepInv(s, BreakLock(p));
      forall acts | Runs(t, acts) && BreakFree(acts) ensures Exclusive(After(t, acts)) {
        BreakFreeIsQuiet(t, acts);
        AlwaysInv(t, acts);
      }
    } else {
      var q :| Insider(s, q);
      var acts := [Mkdir(p)];
      RunsOne(t, Mkdir(p));
      assert p != q && Insider(Do(t, Mkdir(p)), p) && Insider(Do(t, Mkdir(p)), q);
      assert BreakFree(acts) && !Exclusive(After(t, acts));
    }
  }

  /** No owner file of a call inside is older than the limit. */
  ghost predicate HoldersYoung(s: State) {
    forall q :: Insider(s, q) && s.lock.Owned? ==> s.now - s.lock.since <= STALE
  }

  predicate Acquires(s: State, a: Action) { a.Mkdir? && s.lock.Free? }
  predicate FindsStale(s: State, a: Action) { a.Stat? && LooksStale(s) }

  /**
   * An execution in which making the directory and writing the owner file happen at once, finding the lock
   * stale and removing it happen at once, and no holder is over age when somebody looks.
   */
  ghost predicate PromptRun(s: State, acts: seq<Action>)
    requires Runs(s, acts)
    decreases |acts|
  {
    acts == [] ||
    var a := acts[0];
    var t := Do(s, a);
    assert Runs(t, acts[1..]);
    && !a.WriteOwner? && !a.BreakLock? && (a.Stat? ==> HoldersYoung(s))
    && if Acquires(s, a) || FindsStale(s, a)
       then acts[1..] == []
            || (acts[1..][0] == (if a.Mkdir? then WriteOwner(a.p) else BreakLock(a.p))
                && PromptRun(Do(t, acts[1..][0]), acts[1..][1..]))
       else PromptRun(t, acts[1..])
  }

  /** Between two such steps nobody stands half-way through acquiring or breaking. */
  ghost predicate NobodyHalfway(s: State) {
    forall q :: q in s.calls ==> !s.calls[q].phase.Made? && !s.calls[q].phase.Breaking?
  }

  lemma SingleStep(s: State, a: Action)
    requires Enabled(s, a) && !a.WriteOwner? && !a.BreakLock? && !Acquires(s, a) && !FindsStale(s, a) && NobodyHalfway(s)
    ensures NobodyHalfway(Do(s, a))
  {}

  lemma AcquireAtOnce(s: State, p: Pid)
    requires At(s, p, Trying) && s.lock.Free? && NobodyHalfway(s)
    ensures At(Do(s, Mkdir(p)), p, Made) && NobodyHalfway(Do(Do(s, Mkdir(p)), WriteOwner(p)))
  {}

  lemma BreakAtOnce(s: State, p: Pid)
    requires Inv(s) && At(s, p, Blocked) && LooksStale(s) && NobodyHalfway(s) && HoldersYoung(s)
    ensures At(Do(s, Stat(p)), p, Breaking) && Quiet(Do(s, Stat(p)), BreakLock(p))
    ensures NobodyHalfway(Do(Do(s, Stat(p)), BreakLock(p)))
  {
    PromptBreakIsQuiet(s, p);
  }

  lemma {:induction false} PromptIsQuiet(s: State, acts: seq<Action>)
    requires Inv(s) && NobodyHalfway(s) && Runs(s, acts) && PromptRun(s, acts)
    ensures QuietRun(s, acts)
    decreases |acts|
  {
    if acts != [] {
      var a := acts[0];
      var t := Do(s, a);
      StepInv(s, a);
      if Acquires(s, a) || FindsStale(s, a) {
        if acts[1..] != [] {
          if a.Mkdir? { AcquireAtOnce(s, a.p); } else { BreakAtOnce(s, a.p); }
          StepInv(t, acts[1..][0]);
          PromptIsQuiet(Do(t, acts[1..][0]), acts[1..][1..]);
        }
      } else {
        SingleStep(s, a);
        PromptIsQuiet(t, acts[1..]);
      }
    }
  }

  /** The timing conditions are enough, for whole executions of any number of calls. */
  lemma PromptMutualExclusion(now: int, acts: seq<Action>)
    requires Runs(Initial(now), acts) && PromptRun(Initial(now), acts)
    ensures Inv(After(Initial(now), acts)) && QuietRun(Initial(now), acts)
    ensures forall p, q :: Insider(After(Initial(now), acts), p) && Insider(After(Initial(now), acts), q) ==> p == q
  {
    InitialInv(now);
    PromptIsQuiet(Initial(now), acts);
    AlwaysInv(Initial(now), acts);
  }

  // ------------------------------------------------------------------ reading the log back

  function Stripped(l: string): string { if l != "" && l[|l| - 1] == '\r' then l[..|l| - 1] else l }

  function Kept(l: string): seq<string> { if l == "" then [] else [l] }

  /** The text split at line ends, empty lines dropped; `cur` is the line begun so far. */
  function LinesFrom(text: string, cur: string): seq<string> {
    if text == "" then Kept(cur)
    else if text[0] == '\n' then Kept(Stripped(cur)) + LinesFrom(text[1..], "")
    else LinesFrom(text[1..], cur + [text[0]])
  }

  function Lines(text: string): seq<string> { LinesFrom(text, "") }

  lemma {:induction false} LineReadsBack(cur: string, l: string, rest: string)
    requires IsLine(cur + l) && '\n' !in l
    ensures LinesFrom(l + "\n" + rest, cur) == [cur + l] + LinesFrom(rest, "")
    decreases |l|
  {
    var text := l + "\n" + rest;
    if l == "" {
      assert cur + l == cur && text[0] == '\n' && text[1..] == rest;
    } else {
      assert text[0] == l[0] && text[1..] == l[1..] + "\n" + rest;
      assert cur + [l[0]] + l[1..] == cur + l;
      assert l[0] in l && forall c :: c in l[1..] ==> c in l;
      LineReadsBack(cur + [l[0]], l[1..], rest);
    }
  }

  function LinesOf(calls: map<Pid, Call>, order: seq<Pid>): seq<string>
    requires forall p :: p in order ==> p in calls
  {
    seq(|order|, i requires 0 <= i < |order| => assert order[i] in order; calls[order[i]].line)
  }

  /** The call's whole line is in the file. */
  predicate Complete(c: Call) { Wrote(c.phase, |Text(c)|) == Some(|Text(c)|) }

  /** Text without a newline only lengthens the line begun so far. */
  lemma {:induction false} TextAbsorbed(text: string, rest: string, cur: string)
    requires '\n' !in text
    ensures LinesFrom(text + rest, cur) == LinesFrom(rest, cur + text)
    decreases |text|
  {
    if text == "" {
      assert text + rest == rest && cur + text == cur;
    } else {
      assert text[0] in text && (text + rest)[0] == text[0] && (text + rest)[1..] == text[1..] + rest;
      assert forall c :: c in text[1..] ==> c in text;
      TextAbsorbed(text[1..], rest, cur + [text[0]]);
      assert cur + [text[0]] + text[1..] == cur + text;
    }
  }

  /** What the shares of the calls read back as: the lines finished so far, and the piece left open behind them. */
  datatype Reading = Reading(lines: seq<string>, open: string)

  /** A complete share ends the piece before it, its own line included; a torn share lengthens the piece. */
  function Glued(calls: map<Pid, Call>, order: seq<Pid>): Reading
    requires forall p :: p in order ==> p in calls
  {
    if order == [] then Reading([], "")
    else
      assert order[|order| - 1] in order;
      var g, c := Glued(calls, order[..|order| - 1]), calls[order[|order| - 1]];
      if Complete(c) then Reading(g.lines + [g.open + c.line], "") else Reading(g.lines, g.open + Share(c))
  }

  ghost predicate AllLines(calls: map<Pid, Call>, order: seq<Pid>) {
    forall p :: p in order ==> p in calls && IsLine(calls[p].line)
  }

  lemma ShareIs(c: Call)
    requires IsLine(c.line)
    ensures if Complete(c) then Share(c) == c.line + "\n" else '\n' !in Share(c)
  {
    if !Complete(c) && Share(c) != "" {
      assert Share(c) == c.line[..|Share(c)|];
    }
  }

  lemma OpenSnoc(open: string, c: Call)
    requires IsLine(c.line) && '\n' !in open
    ensures IsLine(open + c.line) && (!Complete(c) ==> '\n' !in open + Share(c))
  {
    ShareIs(c);
    assert (open + c.line)[|open + c.line| - 1] == c.line[|c.line| - 1];
  }

  lemma AllLinesFront(calls: map<Pid, Call>, order: seq<Pid>)
    requires order != [] && AllLines(calls, order)
    ensures AllLines(calls, order[..|order| - 1])
    ensures order[|order| - 1] in calls && IsLine(calls[order[|order| - 1]].line)
  {
    assert order[|order| - 1] in order;
    assert forall p :: p in order[..|order| - 1] ==> p in order;
  }

  lemma {:induction false} SharesReadBack(calls: map<Pid, Call>, order: seq<Pid>, rest: string)
    requires AllLines(calls, order)
    ensures '\n' !in Glued(calls, order).open
    ensures Lines(Shares(calls, order) + rest) == Glued(calls, order).lines + LinesFrom(rest, Glued(calls, order).open)
  {
    if order == [] {
      assert Shares(calls, order) + rest == rest;
    } else {
      AllLinesFront(calls, order);
      var head, c := order[..|order| - 1], calls[order[|order| - 1]];
      var g := Glued(calls, head);
      SharesReadBack(calls, head, Share(c) + rest);
      assert Shares(calls, order) + rest == Shares(calls, head) + (Share(c) + rest);
      ShareIs(c);
      OpenSnoc(g.open, c);
      if Complete(c) {
        assert Share(c) + rest == c.line + "\n" + rest;
        LineReadsBack(g.open, c.line, rest);
        assert g.lines + [g.open + c.line] + LinesFrom(rest, "") == g.lines + ([g.open + c.line] + LinesFrom(rest, ""));
      } else {
        TextAbsorbed(Share(c), rest, g.open);
      }
    }
  }

  lemma OrderHasLines(s: State)
    requires Inv(s)
    ensures AllLines(s.calls, s.order)
  {}

  /** In every state of a quiet execution the log reads back as the shares glued together, crashes in mid-line included. */
  lemma LogReadsBack(s: State)
    requires Inv(s)
    ensures AllLines(s.calls, s.order)
    ensures Lines(s.file) == Glued(s.calls, s.order).lines + Kept(Glued(s.calls, s.order).open)
  {
    OrderHasLines(s);
    SharesReadBack(s.calls, s.order, "");
    assert Shares(s.calls, s.order) + "" == s.file;
  }

  /** Nothing torn stands open behind these calls: the last of them that wrote anything wrote its whole line. */
  predicate Clear(calls: map<Pid, Call>, before: seq<Pid>)
    requires forall p :: p in before ==> p in calls
  {
    before == [] ||
    (assert before[|before| - 1] in before;
     var c := calls[before[|before| - 1]];
     Complete(c) || (Share(c) == "" && Clear(calls, before[..|before| - 1])))
  }

  lemma {:induction false} ClearIffNothingOpen(calls: map<Pid, Call>, before: seq<Pid>)
    requires AllLines(calls, before)
    ensures Clear(calls, before) <==> Glued(calls, before).open == ""
  {
    if before != [] {
      AllLinesFront(calls, before);
      ClearIffNothingOpen(calls, before[..|before| - 1]);
      var g, c := Glued(calls, before[..|before| - 1]), calls[before[|before| - 1]];
      assert |g.open + Share(c)| == |g.open| + |Share(c)|;
    }
  }

  lemma {:induction false} SharesExtend(calls: map<Pid, Call>, order: seq<Pid>, i: nat)
    requires i <= |order|
    ensures Shares(calls, order[..i]) <= Shares(calls, order)
    decreases |order|
  {
    if i < |order| {
      var head := order[..|order| - 1];
      SharesExtend(calls, head, i);
      assert head[..i] == order[..i];
    } else {
      assert order[..i] == order;
    }
  }

  lemma SharesSplit(calls: map<Pid, Call>, order: seq<Pid>, i: nat)
    requires i < |order| && order[i] in calls && IsLine(calls[order[i]].line) && Complete(calls[order[i]])
    ensures Shares(calls, order[..i]) + Text(calls[order[i]]) <= Shares(calls, order)
  {
    SharesExtend(calls, order, i + 1);
    assert order[..i + 1][..i] == order[..i];
    ShareIs(calls[order[i]]);
    assert Shares(calls, order[..i + 1]) == Shares(calls, order[..i]) + Text(calls[order[i]]);
  }

  /** The file behind the line of call number `i`. */
  function Behind(s: State, i: nat): string
    requires i < |s.order| && s.order[i] in s.calls
    requires Shares(s.calls, s.order[..i]) + Text(s.calls[s.order[i]]) <= s.file
  {
    s.file[|Shares(s.calls, s.order[..i]) + Text(s.calls[s.order[i]])|..]
  }

  /**
   * Exactly when a written line is a line of the log by itself, between those before it and those behind:
   * if and only if the nearest call before it that wrote anything wrote its whole line. Otherwise it is
   * glued to a torn piece, and an acknowledged event is lost.
   */
  lemma LineReadsBackIff(s: State, i: nat)
    requires Inv(s) && i < |s.order| && s.order[i] in s.calls && Complete(s.calls[s.order[i]])
    ensures AllLines(s.calls, s.order[..i])
    ensures var before, c := Shares(s.calls, s.order[..i]), s.calls[s.order[i]];
            && before + Text(c) <= s.file
            && (Lines(s.file) == Lines(before) + [c.line] + Lines(Behind(s, i)) <==> Clear(s.calls, s.order[..i]))
  {
    OrderHasLines(s);
    assert s.order[i] in s.order;
    SharesSplit(s.calls, s.order, i);
    AllLinesBefore(s.calls, s.order, i);
    var head, c := s.order[..i], s.calls[s.order[i]];
    FileSplits(s.file, Shares(s.calls, head), c.line);
    ReadsBackBetween(s.calls, head, c, Behind(s, i));
  }

  lemma AllLinesBefore(calls: map<Pid, Call>, order: seq<Pid>, i: nat)
    requires AllLines(calls, order) && i <= |order|
    ensures AllLines(calls, order[..i])
  {
    assert forall p :: p in order[..i] ==> p in order;
  }

  lemma FileSplits(file: string, before: string, line: string)
    requires before + (line + "\n") <= file
    ensures file == before + (line + "\n" + file[|before + (line + "\n")|..])
  {}

  lemma ReadsBackBetween(calls: map<Pid, Call>, head: seq<Pid>, c: Call, behind: string)
    requires AllLines(calls, head) && IsLine(c.line)
    ensures var before := Shares(calls, head);
            Lines(before + (c.line + "\n" + behind)) == Lines(before) + [c.line] + Lines(behind) <==> Clear(calls, head)
  {
    var g, before := Glued(calls, head), Shares(calls, head);
    SharesReadBack(calls, head, c.line + "\n" + behind);
    SharesReadBack(calls, head, "");
    assert before + "" == before;
    OpenSnoc(g.open, c);
    LineReadsBack(g.open, c.line, behind);
    ClearIffNothingOpen(calls, head);
    GluedLine(g, c.line, Lines(behind));
  }

  lemma GluedLine(g: Reading, line: string, behind: seq<string>)
    ensures g.lines + ([g.open + line] + behind) == g.lines + Kept(g.open) + [line] + behind <==> g.open == ""
  {
    if g.open == "" {
      assert g.open + line == line && g.lines + Kept(g.open) == g.lines;
      assert g.lines + [line] + behind == g.lines + ([line] + behind);
    } else {
      assert |g.lines + Kept(g.open) + [line] + behind| == |g.lines + ([g.open + line] + behind)| + 1;
    }
  }

  /** A call that died in the middle of its line. */
  predicate Torn(c: Call) { c.phase.Crashed? && Share(c) != "" && !Complete(c) }

  lemma {:induction false} ClearWithoutTears(calls: map<Pid, Call>, before: seq<Pid>)
    requires forall p :: p in before ==> p in calls && (Complete(calls[p]) || Share(calls[p]) == "")
    ensures Clear(calls, before)
  {
    if before != [] {
      assert before[|before| - 1] in before && forall p :: p in before[..|before| - 1] ==> p in before;
      ClearWithoutTears(calls, before[..|before| - 1]);
    }
  }

  /** If nobody died in the middle of a line, every acknowledged event is a line of the log, in lock order, once. */
  lemma AckedReadsBackWithoutTears(s: State, i: nat)
    requires Inv(s) && i < |s.order| && At(s, s.order[i], Acked) && forall p :: p in s.order ==> !Torn(s.calls[p])
    ensures AllLines(s.calls, s.order[..i])
    ensures var before, c := Shares(s.calls, s.order[..i]), s.calls[s.order[i]];
            before + Text(c) <= s.file && Lines(s.file) == Lines(before) + [c.line] + Lines(Behind(s, i))
  {
    OrderHasLines(s);
    forall p | p in s.order[..i] ensures p in s.calls && (Complete(s.calls[p]) || Share(s.calls[p]) == "") {
      NotTheWriter(s, i, p);
    }
    ClearWithoutTears(s.calls, s.order[..i]);
    LineReadsBackIff(s, i);
  }

  lemma NotTheWriter(s: State, i: nat, p: Pid)
    requires Inv(s) && i < |s.order| && p in s.order[..i]
    ensures p in s.order && p in s.calls && !s.calls[p].phase.Writing?
  {
    var j :| 0 <= j < i && s.order[..i][j] == p;
    NoRepeatsIffDistinct(s.order);
    assert s.order[j] == p != s.order[|s.order| - 1];
  }

  lemma {:induction false} GluedWhole(calls: map<Pid, Call>, order: seq<Pid>)
    requires forall p :: p in order ==> p in calls && Complete(calls[p])
    ensures Glued(calls, order) == Reading(LinesOf(calls, order), "")
  {
    if order != [] {
      var head, last := order[..|order| - 1], order[|order| - 1];
      assert last in order && forall p :: p in head ==> p in order;
      GluedWhole(calls, head);
      assert "" + calls[last].line == calls[last].line;
      assert LinesOf(calls, order) == LinesOf(calls, head) + [calls[last].line];
    }
  }

  /** While one call writes, or after it died writing as the last one, the log is the lines before it and its torn piece. */
  lemma TornOnlyAtTheEnd(s: State)
    requires Inv(s) && s.order != []
    requires forall p :: p in s.order[..|s.order| - 1] ==> Complete(s.calls[p])
    ensures var n := |s.order| - 1;
            Lines(s.file) == LinesOf(s.calls, s.order[..n]) + Lines(Share(s.calls[s.order[n]]))
  {
    var n := |s.order| - 1;
    OrderHasLines(s);
    AllLinesFront(s.calls, s.order);
    GluedWhole(s.calls, s.order[..n]);
    SharesReadBack(s.calls, s.order[..n], Share(s.calls[s.order[n]]));
  }

  // ------------------------------------------------------------------ why the break has to be quiet

  ghost predicate Reachable(s: State) { exists acts :: Runs(Initial(0), acts) && After(Initial(0), acts) == s }

  lemma {:induction false} RunsSnoc(s: State, acts: seq<Action>, a: Action)
    requires Runs(s, acts) && Enabled(After(s, acts), a)
    ensures Runs(s, acts + [a]) && After(s, acts + [a]) == Do(After(s, acts), a)
    decreases |acts|
  {
    if acts == [] {
      assert acts + [a] == [a] && [a][1..] == [];
    } else {
      assert (acts + [a])[1..] == acts[1..] + [a];
      RunsSnoc(Do(s, acts[0]), acts[1..], a);
    }
  }

  lemma Take(s: State, a: Action) returns (t: State)
    requires Reachable(s) && Enabled(s, a)
    ensures Reachable(t) && t == Do(s, a)
  {
    var acts :| Runs(Initial(0), acts) && After(Initial(0), acts) == s;
    RunsSnoc(Initial(0), acts, a);
    t := Do(s, a);
  }

  lemma Start()
    ensures Reachable(Initial(0))
  {
    assert Runs(Initial(0), []) && After(Initial(0), []) == Initial(0);
  }

  /** Calls 0 and 1 append the lines "a" and "b". */
  function Pair(x: Phase, y: Phase, lock: Lock, file: string, order: seq<Pid>): State {
    State(map[0 := Call("a", x), 1 := Call("b", y)], lock, file, 0, order)
  }

  lemma Step(s: State, a: Action, t: State)
    requires Reachable(s) && Enabled(s, a) && t == Do(s, a)
    ensures Reachable(t)
  {
    var u := Take(s, a);
  }

  lemma Begun()
    ensures Reachable(Pair(Trying, Trying, Free, "", []))
  {
    Start();
    var s := Take(Initial(0), Begin(0, "a"));
    s := Take(s, Begin(1, "b"));
    assert s == Pair(Trying, Trying, Free, "", []);
  }

  lemma OneWaits()
    ensures Reachable(Pair(Made, Blocked, Bare, "", []))
  {
    Begun();
    Step(Pair(Trying, Trying, Free, "", []), Mkdir(0),
         Pair(Made, Trying, Bare, "", []));
    Step(Pair(Made, Trying, Bare, "", []), Mkdir(1),
         Pair(Made, Blocked, Bare, "", []));
  }

  /** The waiter finds no owner file and takes the lock for stale at once. */
  lemma BrokenAtOnce()
    ensures Reachable(Pair(Made, Trying, Free, "", []))
  {
    OneWaits();
    Step(Pair(Made, Blocked, Bare, "", []), Stat(1),
         Pair(Made, Breaking, Bare, "", []));
    Step(Pair(Made, Breaking, Bare, "", []), BreakLock(1),
         Pair(Made, Trying, Free, "", []));
  }

  /** Both are in. */
  lemma BothInside()
    ensures Reachable(Pair(Writing(0), Writing(0), Owned(0, 0), "", [1, 0]))
  {
    BrokenAtOnce();
    Step(Pair(Made, Trying, Free, "", []), Mkdir(1),
         Pair(Made, Made, Bare, "", []));
    Step(Pair(Made, Made, Bare, "", []), WriteOwner(1),
         Pair(Made, Writing(0), Owned(1, 0), "", [1]));
    Step(Pair(Made, Writing(0), Owned(1, 0), "", [1]), WriteOwner(0),
         Pair(Writing(0), Writing(0), Owned(0, 0), "", [1, 0]));
  }

  lemma OneEach()
    ensures Reachable(Pair(Writing(1), Writing(1), Owned(0, 0), "ab", [1, 0]))
  {
    BothInside();
    Step(Pair(Writing(0), Writing(0), Owned(0, 0), "", [1, 0]), Append(0, 1),
         Pair(Writing(1), Writing(0), Owned(0, 0), "a", [1, 0]));
    Step(Pair(Writing(1), Writing(0), Owned(0, 0), "a", [1, 0]), Append(1, 1),
         Pair(Writing(1), Writing(1), Owned(0, 0), "ab", [1, 0]));
  }

  lemma Interleaved()
    ensures Reachable(Pair(Writing(2), Writing(2), Owned(0, 0), "ab\n\n", [1, 0]))
  {
    OneEach();
    Step(Pair(Writing(1), Writing(1), Owned(0, 0), "ab", [1, 0]), Append(0, 1),
         Pair(Writing(2), Writing(1), Owned(0, 0), "ab\n", [1, 0]));
    Step(Pair(Writing(2), Writing(1), Owned(0, 0), "ab\n", [1, 0]), Append(1, 1),
         Pair(Writing(2), Writing(2), Owned(0, 0), "ab\n\n", [1, 0]));
  }

  lemma OneGone()
    ensures Reachable(Pair(Leaving, Acked, Owned(0, 0), "ab\n\n", [1, 0]))
  {
    Interleaved();
    Step(Pair(Writing(2), Writing(2), Owned(0, 0), "ab\n\n", [1, 0]), Finish(0),
         Pair(Leaving, Writing(2), Owned(0, 0), "ab\n\n", [1, 0]));
    Step(Pair(Leaving, Writing(2), Owned(0, 0), "ab\n\n", [1, 0]), Finish(1),
         Pair(Leaving, Leaving, Owned(0, 0), "ab\n\n", [1, 0]));
    Step(Pair(Leaving, Leaving, Owned(0, 0), "ab\n\n", [1, 0]), ReadOwner(1),
         Pair(Leaving, Acked, Owned(0, 0), "ab\n\n", [1, 0]));
  }

  lemma BothAcked()
    ensures Reachable(Pair(Acked, Acked, Free, "ab\n\n", [1, 0]))
  {
    OneGone();
    Step(Pair(Leaving, Acked, Owned(0, 0), "ab\n\n", [1, 0]), ReadOwner(0),
         Pair(Removing, Acked, Owned(0, 0), "ab\n\n", [1, 0]));
    Step(Pair(Removing, Acked, Owned(0, 0), "ab\n\n", [1, 0]), Remove(0),
         Pair(Acked, Acked, Free, "ab\n\n", [1, 0]));
  }

  /** Both appends are acknowledged, and neither line is in the log. */
  lemma MissingOwnerLosesLines() returns (s: State)
    ensures Reachable(s) && At(s, 0, Acked) && At(s, 1, Acked) && s.calls[0].line == "a" && s.calls[1].line == "b"
    ensures Lines(s.file) == ["ab"]
  {
    BothAcked();
    s := Pair(Acked, Acked, Free, "ab\n\n", [1, 0]);
    LineReadsBack("", "ab", "\n");
    assert "ab" + "\n" + "\n" == "ab\n\n" && "" + "ab" == "ab";
    assert Lines("\n") == [];
  }

  /** Call 2 died inside; both waiters see its old owner file. */
  function Trio(x: Phase, y: Phase, lock: Lock, now: int, order: seq<Pid>): State {
    State(map[0 := Call("a", x), 1 := Call("b", y), 2 := Call("c", Crashed(Some(0)))], lock, "", now, order)
  }

  lemma DiedInside()
    ensures Reachable(Trio(Trying, Trying, Owned(2, 0), 0, [2]))
  {
    ThirdBegun();
    Step(Third(Made, Bare, []), WriteOwner(2), Third(Writing(0), Owned(2, 0), [2]));
    Step(Third(Writing(0), Owned(2, 0), [2]), Crash(2), Trio(Trying, Trying, Owned(2, 0), 0, [2]));
  }

  function Third(z: Phase, lock: Lock, order: seq<Pid>): State {
    State(map[0 := Call("a", Trying), 1 := Call("b", Trying), 2 := Call("c", z)], lock, "", 0, order)
  }

  lemma ThirdBegun()
    ensures Reachable(Third(Made, Bare, []))
  {
    Begun();
    Step(Pair(Trying, Trying, Free, "", []), Begin(2, "c"), Third(Trying, Free, []));
    Step(Third(Trying, Free, []), Mkdir(2), Third(Made, Bare, []));
  }

  lemma LongAfter()
    ensures Reachable(Trio(Blocked, Blocked, Owned(2, 0), STALE + 1, [2]))
  {
    DiedInside();
    Step(Trio(Trying, Trying, Owned(2, 0), 0, [2]), Mkdir(0),
         Trio(Blocked, Trying, Owned(2, 0), 0, [2]));
    Step(Trio(Blocked, Trying, Owned(2, 0), 0, [2]), Mkdir(1),
         Trio(Blocked, Blocked, Owned(2, 0), 0, [2]));
    Step(Trio(Blocked, Blocked, Owned(2, 0), 0, [2]), Pass(STALE + 1),
         Trio(Blocked, Blocked, Owned(2, 0), STALE + 1, [2]));
  }

  lemma BothSeeStale()
    ensures Reachable(Trio(Breaking, Breaking, Owned(2, 0), STALE + 1, [2]))
  {
    LongAfter();
    Step(Trio(Blocked, Blocked, Owned(2, 0), STALE + 1, [2]), Stat(0),
         Trio(Breaking, Blocked, Owned(2, 0), STALE + 1, [2]));
    Step(Trio(Breaking, Blocked, Owned(2, 0), STALE + 1, [2]), Stat(1),
         Trio(Breaking, Breaking, Owned(2, 0), STALE + 1, [2]));
  }

  lemma FirstBreaks()
    ensures Reachable(Trio(Made, Breaking, Bare, STALE + 1, [2]))
  {
    BothSeeStale();
    Step(Trio(Breaking, Breaking, Owned(2, 0), STALE + 1, [2]), BreakLock(0),
         Trio(Trying, Breaking, Free, STALE + 1, [2]));
    Step(Trio(Trying, Breaking, Free, STALE + 1, [2]), Mkdir(0),
         Trio(Made, Breaking, Bare, STALE + 1, [2]));
  }

  lemma FirstTakesOver()
    ensures Reachable(Trio(Writing(0), Breaking, Owned(0, STALE + 1), STALE + 1, [2, 0]))
  {
    FirstBreaks();
    Step(Trio(Made, Breaking, Bare, STALE + 1, [2]), WriteOwner(0),
         Trio(Writing(0), Breaking, Owned(0, STALE + 1), STALE + 1, [2, 0]));
  }

  /** Looking and breaking are two steps: the second waiter breaks the lock the first has just taken. */
  lemma LateBreakLetsTwoIn() returns (s: State)
    ensures Reachable(s) && At(s, 0, Writing(0)) && At(s, 1, Writing(0))
  {
    FirstTakesOver();
    Step(Trio(Writing(0), Breaking, Owned(0, STALE + 1), STALE + 1, [2, 0]), BreakLock(1),
         Trio(Writing(0), Trying, Free, STALE + 1, [2, 0]));
    Step(Trio(Writing(0), Trying, Free, STALE + 1, [2, 0]), Mkdir(1),
         Trio(Writing(0), Made, Bare, STALE + 1, [2, 0]));
    Step(Trio(Writing(0), Made, Bare, STALE + 1, [2, 0]), WriteOwner(1),
         Trio(Writing(0), Writing(0), Owned(1, STALE + 1), STALE + 1, [2, 0, 1]));
    s := Trio(Writing(0), Writing(0), Owned(1, STALE + 1), STALE + 1, [2, 0, 1]);
  }

  // ------------------------------------------------------------------ a death in mid-line, every break quiet

  ghost predicate QuietlyReachable(s: State) {
    exists acts :: Runs(Initial(0), acts) && QuietRun(Initial(0), acts) && After(Initial(0), acts) == s
  }

  lemma {:induction false} QuietSnoc(s: State, acts: seq<Action>, a: Action)
    requires Runs(s, acts) && QuietRun(s, acts) && Enabled(After(s, acts), a) && Quiet(After(s, acts), a)
    ensures Runs(s, acts + [a]) && QuietRun(s, acts + [a]) && After(s, acts + [a]) == Do(After(s, acts), a)
    decreases |acts|
  {
    RunsSnoc(s, acts, a);
    if acts == [] {
      assert acts + [a] == [a] && [a][1..] == [];
    } else {
      assert (acts + [a])[1..] == acts[1..] + [a];
      QuietSnoc(Do(s, acts[0]), acts[1..], a);
    }
  }

  lemma QuietStep(s: State, a: Action, t: State)
    requires QuietlyReachable(s) && Enabled(s, a) && Quiet(s, a) && t == Do(s, a)
    ensures QuietlyReachable(t)
  {
    var acts :| Runs(Initial(0), acts) && QuietRun(Initial(0), acts) && After(Initial(0), acts) == s;
    QuietSnoc(Initial(0), acts, a);
  }

  /** Calls 0 and 1 append the lines "a" and "b", at a given time. */
  function Duo(x: Phase, y: Phase, lock: Lock, file: string, now: int, order: seq<Pid>): State {
    State(map[0 := Call("a", x), 1 := Call("b", y)], lock, file, now, order)
  }

  const LATE := STALE + 1

  lemma DuoBegun()
    ensures QuietlyReachable(Duo(Trying, Trying, Free, "", 0, []))
  {
    var acts: seq<Action> := [];
    assert Runs(Initial(0), acts) && QuietRun(Initial(0), acts) && After(Initial(0), acts) == Initial(0);
    var one := State(map[0 := Call("a", Trying)], Free, "", 0, []);
    QuietStep(Initial(0), Begin(0, "a"), one);
    QuietStep(one, Begin(1, "b"), Duo(Trying, Trying, Free, "", 0, []));
  }

  lemma DuoWriting()
    ensures QuietlyReachable(Duo(Writing(0), Trying, Owned(0, 0), "", 0, [0]))
  {
    DuoBegun();
    QuietStep(Duo(Trying, Trying, Free, "", 0, []), Mkdir(0), Duo(Made, Trying, Bare, "", 0, []));
    QuietStep(Duo(Made, Trying, Bare, "", 0, []), WriteOwner(0), Duo(Writing(0), Trying, Owned(0, 0), "", 0, [0]));
  }

  lemma DuoTorn()
    ensures QuietlyReachable(Duo(Crashed(Some(1)), Trying, Owned(0, 0), "a", 0, [0]))
  {
    DuoWriting();
    QuietStep(Duo(Writing(0), Trying, Owned(0, 0), "", 0, [0]), Append(0, 1),
              Duo(Writing(1), Trying, Owned(0, 0), "a", 0, [0]));
    QuietStep(Duo(Writing(1), Trying, Owned(0, 0), "a", 0, [0]), Crash(0),
              Duo(Crashed(Some(1)), Trying, Owned(0, 0), "a", 0, [0]));
  }

  lemma DuoStale()
    ensures QuietlyReachable(Duo(Crashed(Some(1)), Breaking, Owned(0, 0), "a", LATE, [0]))
  {
    DuoTorn();
    QuietStep(Duo(Crashed(Some(1)), Trying, Owned(0, 0), "a", 0, [0]), Mkdir(1),
              Duo(Crashed(Some(1)), Blocked, Owned(0, 0), "a", 0, [0]));
    QuietStep(Duo(Crashed(Some(1)), Blocked, Owned(0, 0), "a", 0, [0]), Pass(LATE),
              Duo(Crashed(Some(1)), Blocked, Owned(0, 0), "a", LATE, [0]));
    QuietStep(Duo(Crashed(Some(1)), Blocked, Owned(0, 0), "a", LATE, [0]), Stat(1),
              Duo(Crashed(Some(1)), Breaking, Owned(0, 0), "a", LATE, [0]));
  }

  lemma DuoTakenOver()
    ensures QuietlyReachable(Duo(Crashed(Some(1)), Writing(0), Owned(1, LATE), "a", LATE, [0, 1]))
  {
    DuoStale();
    QuietStep(Duo(Crashed(Some(1)), Breaking, Owned(0, 0), "a", LATE, [0]), BreakLock(1),
              Duo(Crashed(Some(1)), Trying, Free, "a", LATE, [0]));
    QuietStep(Duo(Crashed(Some(1)), Trying, Free, "a", LATE, [0]), Mkdir(1),
              Duo(Crashed(Some(1)), Made, Bare, "a", LATE, [0]));
    QuietStep(Duo(Crashed(Some(1)), Made, Bare, "a", LATE, [0]), WriteOwner(1),
              Duo(Crashed(Some(1)), Writing(0), Owned(1, LATE), "a", LATE, [0, 1]));
  }

  lemma DuoWritten()
    ensures QuietlyReachable(Duo(Crashed(Some(1)), Leaving, Owned(1, LATE), "ab\n", LATE, [0, 1]))
  {
    DuoTakenOver();
    QuietStep(Duo(Crashed(Some(1)), Writing(0), Owned(1, LATE), "a", LATE, [0, 1]), Append(1, 2),
              Duo(Crashed(Some(1)), Writing(2), Owned(1, LATE), "ab\n", LATE, [0, 1]));
    QuietStep(Duo(Crashed(Some(1)), Writing(2), Owned(1, LATE), "ab\n", LATE, [0, 1]), Finish(1),
              Duo(Crashed(Some(1)), Leaving, Owned(1, LATE), "ab\n", LATE, [0, 1]));
  }

  /** No lock was broken with anybody inside, and still an acknowledged event is lost behind a torn line. */
  lemma TornLineLosesTheNext() returns (s: State)
    ensures QuietlyReachable(s) && At(s, 1, Acked) && s.calls[1].line == "b" && Lines(s.file) == ["ab"]
  {
    DuoWritten();
    QuietStep(Duo(Crashed(Some(1)), Leaving, Owned(1, LATE), "ab\n", LATE, [0, 1]), ReadOwner(1),
              Duo(Crashed(Some(1)), Removing, Owned(1, LATE), "ab\n", LATE, [0, 1]));
    s := Duo(Crashed(Some(1)), Acked, Free, "ab\n", LATE, [0, 1]);
    QuietStep(Duo(Crashed(Some(1)), Removing, Owned(1, LATE), "ab\n", LATE, [0, 1]), Remove(1), s);
    LineReadsBack("", "ab", "");
    assert "ab" + "\n" + "" == "ab\n" && "" + "ab" == "ab" && Lines("") == [];
  }
}
