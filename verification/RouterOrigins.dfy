/**
 * Where the router's results and outbox lines come from, over whole runs: every result of a build task is what the
 * transport answered for it, a thrown build is refused and stays visible in the outbox, and nothing else is written.
 */
module RouterOrigins {
  import opened Values
  import opened Router

  /** What the router makes of the transport's answer: the answer itself, or a refusal with the error. */
  predicate Tells(transport: Option<string>, id: TaskId, a: Answer, r: Result) {
    match a
    case Answered(x) => r == x
    case Threw(m) => !r.accepted && r.error == Some(m) && r.task == id && Some(r.transport) == transport
  }

  /** In this step the transport answers for the task, and the result is what it tells. */
  predicate AnswersNow(s: State, a: Action, id: TaskId, r: Result)
    requires Enabled(s, a)
  {
    a.SettleCall? && s.calls[a.c].task.id == id && Tells(s.transport, id, a.answer, r)
  }

  /** At some step of the run. */
  ghost predicate Answered(s: State, actions: seq<Action>, id: TaskId, r: Result)
    requires Runs(s, actions)
    decreases |actions|
  {
    actions != []
    && (AnswersNow(s, actions[0], id, r) || Answered(Do(s, actions[0]), actions[1..], id, r))
  }

  /** A call of the task waits for the outbox after a throw that the result tells. */
  ghost predicate Awaits(s: State, id: TaskId, r: Result) {
    exists c :: c in s.calls && s.calls[c].Mirroring? && s.calls[c].task.id == id
                && Tells(s.transport, id, Threw(s.calls[c].message), r)
  }

  lemma StepHasOrigin(s: State, a: Action, id: TaskId)
    requires Inv(s) && Enabled(s, a) && id in Do(s, a).results && id !in s.results
    ensures var r := Do(s, a).results[id]; AnswersNow(s, a, id, r) || Awaits(s, id, r)
  {}

  lemma StepAwaits(s: State, a: Action, id: TaskId, r: Result)
    requires Enabled(s, a) && Awaits(Do(s, a), id, r)
    ensures AnswersNow(s, a, id, r) || Awaits(s, id, r)
  {
    var t := Do(s, a);
    var c :| c in t.calls && t.calls[c].Mirroring? && t.calls[c].task.id == id
             && Tells(t.transport, id, Threw(t.calls[c].message), r);
    if c in s.calls && s.calls[c] == t.calls[c] { assert Awaits(s, id, r); }
  }

  lemma {:induction false} ResultsHaveOrigins(s: State, actions: seq<Action>, id: TaskId)
    requires Inv(s) && Runs(s, actions) && id in After(s, actions).results && id !in s.results
    ensures var r := After(s, actions).results[id]; Answered(s, actions, id, r) || Awaits(s, id, r)
    decreases |actions|
  {
    var t := Do(s, actions[0]);
    var r := After(s, actions).results[id];
    StepKeeps(s, actions[0]);
    AlwaysInv(t, actions[1..]);
    if id in t.results {
      StepHasOrigin(s, actions[0], id);
    } else {
      ResultsHaveOrigins(t, actions[1..], id);
      if Awaits(t, id, r) { StepAwaits(s, actions[0], id, r); }
    }
  }

  /**
   * A build dispatch returns that its build is in flight, or what the transport told about the task: its own
   * answer, or, if it threw, a refusal that carries the error. A thrown build is never accepted.
   */
  lemma RepliesAreTold(transport: Option<string>, actions: seq<Action>, c: CallId)
    requires Runs(Initial(transport), actions)
    requires var s := After(Initial(transport), actions);
             c in s.calls && s.calls[c].Returned? && s.calls[c].task.kind == "product-build" && transport.Some?
    ensures var call := After(Initial(transport), actions).calls[c];
            || (call.result.transport == "in-flight" && call.result.accepted && call.result.task == call.task.id)
            || Answered(Initial(transport), actions, call.task.id, call.result)
  {
    var s := After(Initial(transport), actions);
    InitialInv(transport);
    AlwaysInv(Initial(transport), actions);
    if s.calls[c].result != InFlight(s.calls[c].task.id) {
      ResultsHaveOrigins(Initial(transport), actions, s.calls[c].task.id);
    }
  }

  // ------------------------------------------------------------------ the outbox

  /** The line is a task that is not built here, queued as it came. */
  predicate QueuedLine(s: State, a: Action, line: Task)
    requires Enabled(s, a)
  {
    a.OutboxCall? && a.written && s.calls[a.c].Queueing? && line == s.calls[a.c].task
    && !(line.kind == "product-build" && s.transport.Some?)
  }

  /** The line is a build task whose transport threw, marked as failed. */
  predicate FailedLine(s: State, a: Action, line: Task)
    requires Enabled(s, a)
  {
    a.OutboxCall? && a.written && s.calls[a.c].Mirroring?
    && line.id == s.calls[a.c].task.id && line.kind == s.calls[a.c].task.kind && line.status == "dispatch-failed"
  }

  /** Each step writes at most one line, and only a queued task or a failed build. */
  lemma StepWrites(s: State, a: Action)
    requires Inv(s) && Enabled(s, a)
    ensures var t := Do(s, a);
            || t.outbox == s.outbox
            || (t.outbox != [] && t.outbox[..|t.outbox| - 1] == s.outbox
                && (QueuedLine(s, a, t.outbox[|t.outbox| - 1]) || FailedLine(s, a, t.outbox[|t.outbox| - 1])))
    ensures a.OutboxCall? && a.written ==> |Do(s, a).outbox| == |s.outbox| + 1
  {}

  /** What the outbox has written, the calls have returned: a queued task is accepted, a failed build refused. */
  lemma OutboxReplies(s: State, c: CallId, written: bool)
    requires Inv(s) && Enabled(s, OutboxCall(c, written))
    ensures var t := Do(s, OutboxCall(c, written));
            && (s.calls[c].Queueing? && written ==>
                  t.calls[c].Returned? && t.calls[c].result.accepted
                  && t.calls[c].result.transport == "jsonl-outbox" && t.calls[c].result.task == s.calls[c].task.id)
            && (s.calls[c].Queueing? && !written ==> t.calls[c].Rejected?)
            && (s.calls[c].Mirroring? ==>
                  t.calls[c].Returned? && s.calls[c].task.id in t.results
                  && t.results[s.calls[c].task.id] == t.calls[c].result
                  && Tells(s.transport, s.calls[c].task.id, Threw(s.calls[c].message), t.calls[c].result))
  {}

  /** Nobody waits for ever: whatever a call waits for may come, and a new call may always start. */
  lemma CallsMayEnd(s: State, c: CallId, task: Task, answer: Answer, written: bool)
    requires Inv(s)
    ensures c !in s.calls ==> Enabled(s, StartCall(c, task))
    ensures c in s.calls && s.calls[c].Building? ==> Enabled(s, SettleCall(c, answer))
    ensures c in s.calls && (s.calls[c].Queueing? || s.calls[c].Mirroring?) ==> Enabled(s, OutboxCall(c, written))
  {}
}
