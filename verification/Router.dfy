/**
 * The dispatch router: one transport call per product-build task, whatever calls overlap.
 * JavaScript runs atomically between awaits, so a dispatch is a start step and one or two
 * completion steps, and other dispatches interleave with them.
 */
module Router {
  import opened Values

  type TaskId = string
  type CallId = nat

  datatype Task = Task(id: TaskId, kind: string, status: string)

  datatype Result = Result(accepted: bool, transport: string, task: TaskId, error: Option<string>)

  /** How the transport, or the outbox, ends: a value or a throw. */
  datatype Answer = Answered(result: Result) | Threw(message: string)

  const PRODUCT_BUILD := "product-build"

  function InFlight(id: TaskId): Result { Result(true, "in-flight", id, None) }

  function FailedBuild(transport: string, id: TaskId, message: string): Result {
    Result(false, transport, id, Some(message))
  }

  function Mirror(t: Task): Task { t.(status := "dispatch-failed") }

  function Outboxed(id: TaskId): Result { Result(true, "jsonl-outbox", id, None) }

  // ------------------------------------------------------------------ overlapping calls

  datatype Call =
    | Building(task: Task)                    // awaiting the transport
    | Mirroring(task: Task, message: string)  // the transport threw; awaiting the outbox
    | Queueing(task: Task)                    // no build task: awaiting the outbox
    | Returned(task: Task, result: Result)
    | Rejected(task: Task)

  /** `transports` lists the task ids the transport was called with, `outbox` the lines written. */
  datatype State = State(transport: Option<string>, dispatched: set<TaskId>, results: map<TaskId, Result>,
                         calls: map<CallId, Call>, transports: seq<TaskId>, outbox: seq<Task>)

  function Initial(transport: Option<string>): State { State(transport, {}, map[], map[], [], []) }

  predicate BuildsHere(s: State, t: Task) { t.kind == PRODUCT_BUILD && s.transport.Some? }

  /** The part of `dispatch` before its first await. */
  function Start(s: State, c: CallId, t: Task): State {
    if !BuildsHere(s, t) then s.(calls := s.calls[c := Queueing(t)])
    else if t.id in s.results then s.(calls := s.calls[c := Returned(t, s.results[t.id])])
    else if t.id in s.dispatched then s.(calls := s.calls[c := Returned(t, InFlight(t.id))])
    else s.(dispatched := s.dispatched + {t.id}, transports := s.transports + [t.id], calls := s.calls[c := Building(t)])
  }

  function Finish(s: State, c: CallId, t: Task, r: Result): State {
    s.(results := s.results[t.id := r], calls := s.calls[c := Returned(t, r)])
  }

  /** The transport settles. */
  function Settle(s: State, c: CallId, a: Answer): State
    requires c in s.calls && s.calls[c].Building?
  {
    var t := s.calls[c].task;
    match a
    case Answered(r) => Finish(s, c, t, r)
    case Threw(m) => s.(calls := s.calls[c := Mirroring(t, m)])
  }

  /** The outbox settles; its failure is swallowed for a mirrored build and rethrown otherwise. */
  function OutboxDone(s: State, c: CallId, written: bool): State
    requires c in s.calls && (s.calls[c].Queueing? || (s.calls[c].Mirroring? && s.transport.Some?))
  {
    var t := s.calls[c].task;
    if s.calls[c].Mirroring?
    then Finish(if written then s.(outbox := s.outbox + [Mirror(t)]) else s, c, t,
                FailedBuild(s.transport.value, t.id, s.calls[c].message))
    else if written then s.(outbox := s.outbox + [t], calls := s.calls[c := Returned(t, Outboxed(t.id))])
    else s.(calls := s.calls[c := Rejected(t)])
  }

  datatype Action = StartCall(c: CallId, task: Task) | SettleCall(c: CallId, answer: Answer) | OutboxCall(c: CallId, written: bool)

  predicate Enabled(s: State, a: Action) {
    match a
    case StartCall(c, _) => c !in s.calls
    case SettleCall(c, _) => c in s.calls && s.calls[c].Building?
    case OutboxCall(c, _) =>
      c in s.calls && (s.calls[c].Queueing? || (s.calls[c].Mirroring? && s.transport.Some?))
  }

  function Do(s: State, a: Action): State
    requires Enabled(s, a)
  {
    match a
    case StartCall(c, t) => Start(s, c, t)
    case SettleCall(c, x) => Settle(s, c, x)
    case OutboxCall(c, w) => OutboxDone(s, c, w)
  }

  predicate Pending(c: Call) { c.Building? || c.Mirroring? }

  /** Every task the transport was called for is dispatched, once. */
  ghost predicate OncePerTask(s: State) {
    && NoRepeats(s.transports)
    && (forall id :: id in s.transports <==> id in s.dispatched)
    && s.results.Keys <= s.dispatched
  }

  /** A dispatched task without a result belongs to exactly one pending call. */
  ghost predicate Owned(s: State) {
    && (forall c :: c in s.calls && Pending(s.calls[c]) ==>
          (BuildsHere(s, s.calls[c].task) && s.calls[c].task.id in s.dispatched && s.calls[c].task.id !in s.results))
    && (forall c, d :: (c in s.calls && d in s.calls && c != d && Pending(s.calls[c]) && Pending(s.calls[d])) ==>
          s.calls[c].task.id != s.calls[d].task.id)
    && (forall c :: c in s.calls && s.calls[c].Queueing? ==> !BuildsHere(s, s.calls[c].task))
  }

  /** A finished build call returned the stored result, or 'in-flight' if it overlapped the owner. */
  ghost predicate Answers(s: State) {
    forall c :: c in s.calls && s.calls[c].Returned? && BuildsHere(s, s.calls[c].task) ==>
      (s.calls[c].result == InFlight(s.calls[c].task.id)
       || (s.calls[c].task.id in s.results && s.calls[c].result == s.results[s.calls[c].task.id]))
  }

  ghost predicate Inv(s: State) { OncePerTask(s) && Owned(s) && Answers(s) }

  lemma InitialInv(transport: Option<string>)
    ensures Inv(Initial(transport))
  {}

  lemma StartKeeps(s: State, c: CallId, t: Task)
    requires Inv(s) && c !in s.calls
    ensures Inv(Start(s, c, t))
  {
    NoRepeatsSnoc(s.transports, t.id);
    StartOwned(s, c, t);
  }

  lemma StartOwned(s: State, c: CallId, t: Task)
    requires Owned(s) && s.results.Keys <= s.dispatched && c !in s.calls
    ensures Owned(Start(s, c, t))
  {}

  lemma FinishKeeps(s: State, c: CallId, r: Result)
    requires Inv(s) && c in s.calls && Pending(s.calls[c])
    ensures Inv(Finish(s, c, s.calls[c].task, r))
  {
    FinishOwned(s, c, r);
    FinishAnswers(s, c, r);
  }

  lemma FinishOwned(s: State, c: CallId, r: Result)
    requires Owned(s) && c in s.calls && Pending(s.calls[c])
    ensures Owned(Finish(s, c, s.calls[c].task, r))
  {}

  lemma FinishAnswers(s: State, c: CallId, r: Result)
    requires Owned(s) && Answers(s) && c in s.calls && Pending(s.calls[c])
    ensures Answers(Finish(s, c, s.calls[c].task, r))
  {}

  lemma SettleKeeps(s: State, c: CallId, a: Answer)
    requires Inv(s) && c in s.calls && s.calls[c].Building?
    ensures Inv(Settle(s, c, a))
  {
    if a.Answered? { FinishKeeps(s, c, a.result); }
  }

  lemma OutboxKeeps(s: State, c: CallId, written: bool)
    requires Inv(s) && Enabled(s, OutboxCall(c, written))
    ensures Inv(OutboxDone(s, c, written))
  {
    if s.calls[c].Mirroring? {
      var t := s.calls[c].task;
      var s1 := if written then s.(outbox := s.outbox + [Mirror(t)]) else s;
      FinishKeeps(s1, c, FailedBuild(s.transport.value, t.id, s.calls[c].message));
    }
  }

  /** Stored results are never replaced: every call that returns later returns the same result. */
  ghost predicate ResultsStay(s: State, s': State) {
    && s'.transport == s.transport
    && (forall id :: id in s.results ==> id in s'.results && s'.results[id] == s.results[id])
  }

  lemma StepKeeps(s: State, a: Action)
    requires Inv(s) && Enabled(s, a)
    ensures Inv(Do(s, a))
  {
    match a
    case StartCall(c, t) => StartKeeps(s, c, t);
    case SettleCall(c, x) => SettleKeeps(s, c, x);
    case OutboxCall(c, w) => OutboxKeeps(s, c, w);
  }

  lemma StepKeepsResults(s: State, a: Action)
    requires Inv(s) && Enabled(s, a)
    ensures ResultsStay(s, Do(s, a))
  {}

  /** What a call that starts when its task has a result looks like from then on. */
  ghost predicate Replies(s: State, c: CallId, id: TaskId, r: Result) {
    c in s.calls && s.calls[c].task.id == id && BuildsHere(s, s.calls[c].task) ==>
      s.calls[c] == Returned(s.calls[c].task, r)
  }

  lemma StepReplies(s: State, a: Action, c: CallId, id: TaskId, r: Result)
    requires Enabled(s, a) && id in s.results && s.results[id] == r && Replies(s, c, id, r)
    ensures Replies(Do(s, a), c, id, r)
  {}

  ghost predicate Runs(s: State, actions: seq<Action>)
    decreases |actions|
  {
    actions == [] || (Enabled(s, actions[0]) && Runs(Do(s, actions[0]), actions[1..]))
  }

  ghost function After(s: State, actions: seq<Action>): State
    requires Runs(s, actions)
    decreases |actions|
  {
    if actions == [] then s else After(Do(s, actions[0]), actions[1..])
  }

  lemma {:induction false} AlwaysInv(s: State, actions: seq<Action>)
    requires Inv(s) && Runs(s, actions)
    ensures Inv(After(s, actions)) && ResultsStay(s, After(s, actions))
    decreases |actions|
  {
    if actions != [] {
      StepKeeps(s, actions[0]);
      StepKeepsResults(s, actions[0]);
      AlwaysInv(Do(s, actions[0]), actions[1..]);
    }
  }

  /** However dispatches overlap, the transport is called at most once per task id. */
  lemma OneTransportCall(transport: Option<string>, actions: seq<Action>)
    requires Runs(Initial(transport), actions)
    ensures Distinct(After(Initial(transport), actions).transports)
  {
    InitialInv(transport);
    AlwaysInv(Initial(transport), actions);
    NoRepeatsIffDistinct(After(Initial(transport), actions).transports);
  }

  /** From the moment a result is stored, every dispatch of its task that starts returns that result. */
  lemma {:induction false} LaterCallsReturnIt(s: State, actions: seq<Action>, c: CallId, id: TaskId)
    requires Inv(s) && Runs(s, actions) && id in s.results
    requires c !in s.calls || Replies(s, c, id, s.results[id])
    ensures Replies(After(s, actions), c, id, s.results[id])
    decreases |actions|
  {
    if actions != [] {
      var t := Do(s, actions[0]);
      assert Replies(s, c, id, s.results[id]);
      StepReplies(s, actions[0], c, id, s.results[id]);
      StepKeeps(s, actions[0]);
      StepKeepsResults(s, actions[0]);
      LaterCallsReturnIt(t, actions[1..], c, id);
    }
  }

  // ------------------------------------------------------------------ one dispatch after another

  /** A dispatch that nothing overlaps: its steps in a row, under call id 0. */
  function Whole(s: State, t: Task, a: Answer, written: bool): State {
    var s1 := Start(s, 0, t);
    if s1.calls[0].Queueing? then OutboxDone(s1, 0, written)
    else if s1.calls[0].Building? then
      var s2 := Settle(s1, 0, a);
      if s2.calls[0].Mirroring? then OutboxDone(s2, 0, written) else s2
    else s1
  }

  function Reply(c: Call): Option<Result> { if c.Returned? then Some(c.result) else None }

  function Settled(transport: string, id: TaskId, a: Answer): Result {
    match a
    case Answered(r) => r
    case Threw(m) => FailedBuild(transport, id, m)
  }

  function Mirrored(s: State, t: Task, a: Answer, written: bool): seq<Task> {
    if a.Threw? && written then s.outbox + [Mirror(t)] else s.outbox
  }

  lemma WholeNew(s: State, t: Task, a: Answer, written: bool)
    requires BuildsHere(s, t) && t.id !in s.results && t.id !in s.dispatched
    ensures Whole(s, t, a, written).(calls := map[])
         == s.(dispatched := s.dispatched + {t.id}, transports := s.transports + [t.id], calls := map[],
               results := s.results[t.id := Settled(s.transport.value, t.id, a)], outbox := Mirrored(s, t, a, written))
    ensures Reply(Whole(s, t, a, written).calls[0]) == Some(Settled(s.transport.value, t.id, a))
  {}

  lemma WholeKnown(s: State, t: Task, a: Answer, written: bool)
    requires BuildsHere(s, t) && t.id in s.results
    ensures Whole(s, t, a, written).(calls := map[]) == s.(calls := map[])
    ensures Reply(Whole(s, t, a, written).calls[0]) == Some(s.results[t.id])
  {}

  lemma WholeQueued(s: State, t: Task, a: Answer, written: bool)
    requires !BuildsHere(s, t)
    ensures Whole(s, t, a, written).(calls := map[])
         == s.(calls := map[], outbox := if written then s.outbox + [t] else s.outbox)
    ensures Reply(Whole(s, t, a, written).calls[0]) == if written then Some(Outboxed(t.id)) else None
  {}

  lemma CalledOnce(s: State, id: TaskId, r: Result, outbox: seq<Task>)
    requires OncePerTask(s) && s.dispatched == s.results.Keys && id !in s.dispatched
    ensures OncePerTask(s.(dispatched := s.dispatched + {id}, transports := s.transports + [id],
                           results := s.results[id := r], outbox := outbox))
  {
    NoRepeatsSnoc(s.transports, id);
    assert forall x :: x in s.transports + [id] <==> x in s.transports || x == id;
  }

  class RouterDispatcher {
    const transport: Option<string>
    var dispatchedBuilds: set<TaskId>
    var buildResults: map<TaskId, Result>
    var outbox: seq<Task>
    ghost var transports: seq<TaskId>

    ghost function View(): State
      reads this
    {
      State(transport, dispatchedBuilds, buildResults, map[], transports, outbox)
    }

    /** Between two dispatches nothing is in flight. */
    ghost predicate Valid()
      reads this
    {
      OncePerTask(View()) && dispatchedBuilds == buildResults.Keys
    }

    constructor (transport: Option<string>)
      ensures Valid() && View() == Initial(transport)
    {
      this.transport := transport;
      dispatchedBuilds, buildResults, outbox, transports := {}, map[], [], [];
    }

    /** The first dispatch of a build task: mark it, call the transport, store what came back. */
    method Build(task: Task, answer: Answer, written: bool) returns (result: Result)
      requires Valid() && transport.Some? && task.id !in dispatchedBuilds
      modifies this
      ensures Valid() && result == Settled(transport.value, task.id, answer)
      ensures View() == old(View()).(dispatched := old(dispatchedBuilds) + {task.id},
                                     transports := old(transports) + [task.id],
                                     results := old(buildResults)[task.id := result],
                                     outbox := Mirrored(old(View()), task, answer, written))
    {
      ghost var s := View();
      dispatchedBuilds := dispatchedBuilds + {task.id};
      transports := transports + [task.id];
      match answer {
        case Answered(x) => result := x;
        case Threw(m) =>
          if written { outbox := outbox + [task.(status := "dispatch-failed")]; }
          result := FailedBuild(transport.value, task.id, m);
      }
      buildResults := buildResults[task.id := result];
      CalledOnce(s, task.id, result, outbox);
    }

    /** `answer` and `written` are what the transport and the outbox will do if they are called. */
    method Dispatch(task: Task, answer: Answer, written: bool) returns (r: Option<Result>)
      requires Valid()
      modifies this
      ensures Valid()
      ensures var s := Whole(old(View()), task, answer, written);
              View() == s.(calls := map[]) && r == Reply(s.calls[0])
    {
      if task.kind == PRODUCT_BUILD && transport.Some? {
        if task.id in buildResults {
          WholeKnown(View(), task, answer, written);
          return Some(buildResults[task.id]);
        }
        if task.id in dispatchedBuilds { return Some(InFlight(task.id)); }
        WholeNew(View(), task, answer, written);
        var result := Build(task, answer, written);
        return Some(result);
      }
      WholeQueued(View(), task, answer, written);
      if written {
        outbox := outbox + [task];
        return Some(Outboxed(task.id));
      }
      return None;
    }
  }

  /** The controller's double delivery: the second dispatch of a build calls nothing and repeats the answer. */
  lemma SecondDispatch(s: State, t: Task, a: Answer, w: bool, a': Answer, w': bool)
    requires s.calls == map[] && BuildsHere(s, t) && s.dispatched == s.results.Keys
    ensures var s1 := Whole(s, t, a, w).(calls := map[]);
            var s2 := Whole(s1, t, a', w');
            && s2.(calls := map[]) == s1
            && Reply(s2.calls[0]) == Some(s1.results[t.id])
            && (t.id !in s.dispatched ==> s1.transports == s.transports + [t.id])
  {
    if t.id in s.dispatched { WholeKnown(s, t, a, w); } else { WholeNew(s, t, a, w); }
    WholeKnown(Whole(s, t, a, w).(calls := map[]), t, a', w');
  }
}
