/**
 * What one start of a build leaves in the graph, member by member: the build with its outcome, the announced task, and
 * both linked from the idea.
 */
module ControllerRecords {
  import opened Values
  import opened GraphModel
  import opened Projector
  import opened Builds
  import opened Controller
  import opened Lineage

  /** The build reads its outcome, its idea, the name of its kind of work, and both times. */
  predicate BuildReads(e: Entity, title: Value, at: string, d: Dispatched) {
    && e.typ == "BuildRun" && Get(e.data, "idea_id") == Str(d.idea) && Get(e.data, "queued_at") == Str(at)
    && (if d.result.accepted
        then Get(e.data, "status") == Str("running") && Get(e.data, "running_at") == Str(at)
             && Get(e.data, "rejected_reason") == Undefined
        else Get(e.data, "status") == Str("rejected") && Get(e.data, "rejected_at") == Str(at)
             && Get(e.data, "rejected_reason") == Str(if d.result.error.Some? then d.result.error.value else d.result.transport))
    && Get(e.fields, "name") == (if Missing(title) then Str(d.build) else title)
  }

  predicate TaskReads(e: Entity, title: Value, at: string, d: Dispatched) {
    && e.typ == "Task" && Get(e.fields, "name") == title && Get(e.data, "created_at") == Str(at)
    && Get(e.data, "kind") == Str("product-build") && Get(e.data, "status") == Str("ready")
    && Get(e.data, "risk_class") == Num(2.0)
    && Get(e.data, "subject_id") == Str(d.idea) && Get(e.data, "build_run_id") == Str(d.build)
  }

  /** One member of the entity an event stores. */
  lemma MemberIs(g: Graph, e: Event, k: string)
    requires WellFormed(g) && TypeOf(e.typ).Some? && IdOf(e) != ""
    ensures var h := Project(g, e).graph;
            IdOf(e) in h.entities
            && Get(h.entities[IdOf(e)].data, k)
               == if Sets(e, k).Some? then Sets(e, k).value
                  else if IdOf(e) in g.entities then Get(g.entities[IdOf(e)].data, k) else Undefined
  {
    EntityIs(g, e);
  }

  lemma HeadIs(g: Graph, e: Event)
    requires WellFormed(g) && TypeOf(e.typ).Some? && IdOf(e) != ""
    ensures var h := Project(g, e).graph;
            IdOf(e) in h.entities && TypeOf(e.typ) == Some(h.entities[IdOf(e)].typ)
            && Get(h.entities[IdOf(e)].fields, "name") == NameIs(e)
  {
    EntityIs(g, e);
  }

  lemma BuildSets(e: Event, title: Value, at: string, idea: Id, build: Id, status: string, reason: Option<string>)
    requires e.typ.BuildStarted? || e.typ.BuildCompleted?
    requires e == BuildEvent(e.typ, at, build, title, idea, status, reason)
    ensures IdOf(e) == build && NameIs(e) == (if Missing(title) then Str(build) else title)
    ensures TimedAs(e) == status + "_at"
    ensures Get(e.payload, "status") == Str(status) && Get(e.payload, "idea_id") == Str(idea)
    ensures Get(e.payload, "rejected_reason") == if reason.Some? then Str(reason.value) else Undefined
  {}

  /** No status ends like a time. */
  lemma TimeIsNoStatus(status: string)
    ensures status + "_at" != "status" && status + "_at" != "idea_id" && status + "_at" != "rejected_reason"
  {
    var stamp := status + "_at";
    assert stamp[|stamp| - 1] == 't' && stamp[|stamp| - 2] == 'a';
    assert "status"[5] == 's' && "idea_id"[6] == 'd' && "rejected_reason"[14] == 'n';
  }

  lemma BuildSetsMembers(e: Event, title: Value, at: string, idea: Id, build: Id, status: string, reason: Option<string>)
    requires e.typ.BuildStarted? || e.typ.BuildCompleted?
    requires e == BuildEvent(e.typ, at, build, title, idea, status, reason)
    ensures Sets(e, status + "_at") == Some(Str(at)) && Sets(e, "status") == Some(Str(status))
    ensures Sets(e, "idea_id") == Some(Str(idea))
    ensures Sets(e, "rejected_reason") == if reason.Some? then Some(Str(reason.value)) else None
  {
    BuildSets(e, title, at, idea, build, status, reason);
    TimeIsNoStatus(status);
  }

  lemma QueuedReads(g: Graph, title: Value, at: string, d: Dispatched)
    requires WellFormed(g) && d.build != "" && d.build !in g.entities
    ensures var r := Project(g, BuildEvent(BuildStarted, at, d.build, title, d.idea, "queued", None));
            d.build in r.graph.entities && Queued(r.graph.entities[d.build], at)
  {
    var e := BuildEvent(BuildStarted, at, d.build, title, d.idea, "queued", None);
    BuildSets(e, title, at, d.idea, d.build, "queued", None);
    BuildSetsMembers(e, title, at, d.idea, d.build, "queued", None);
    assert "queued" + "_at" == "queued_at";
    MemberIs(g, e, "queued_at");
    MemberIs(g, e, "rejected_reason");
  }

  predicate Queued(e: Entity, at: string) {
    Get(e.data, "queued_at") == Str(at) && Get(e.data, "rejected_reason") == Undefined
  }

  lemma OutcomeReads(g: Graph, title: Value, at: string, d: Dispatched)
    requires WellFormed(g) && d.build != "" && d.build in g.entities && Queued(g.entities[d.build], at)
    ensures var r := Project(g, OutcomeEvent(title, at, d));
            d.build in r.graph.entities && BuildReads(r.graph.entities[d.build], title, at, d)
  {
    var e, r := OutcomeEvent(title, at, d), d.result;
    var status := if r.accepted then "running" else "rejected";
    var reason := if r.accepted then None else Some(if r.error.Some? then r.error.value else r.transport);
    BuildSets(e, title, at, d.idea, d.build, status, reason);
    BuildSetsMembers(e, title, at, d.idea, d.build, status, reason);
    QueuedStays(e, title, at, d.idea, d.build, status, reason);
    HeadIs(g, e);
    MemberIs(g, e, "queued_at");
    MemberIs(g, e, "idea_id");
    MemberIs(g, e, "status");
    MemberIs(g, e, status + "_at");
    MemberIs(g, e, "rejected_reason");
    ReadsAsSet(Project(g, e).graph.entities[d.build], title, at, d, status, reason);
  }

  lemma ReadsAsSet(e: Entity, title: Value, at: string, d: Dispatched, status: string, reason: Option<string>)
    requires status == if d.result.accepted then "running" else "rejected"
    requires reason == if d.result.accepted then None
                       else Some(if d.result.error.Some? then d.result.error.value else d.result.transport)
    requires e.typ == "BuildRun" && Get(e.data, "idea_id") == Str(d.idea) && Get(e.data, "queued_at") == Str(at)
    requires Get(e.data, "status") == Str(status) && Get(e.data, status + "_at") == Str(at)
    requires Get(e.data, "rejected_reason") == if reason.Some? then Str(reason.value) else Undefined
    requires Get(e.fields, "name") == (if Missing(title) then Str(d.build) else title)
    ensures BuildReads(e, title, at, d)
  {
    assert "running" + "_at" == "running_at" && "rejected" + "_at" == "rejected_at";
  }

  /** The outcome leaves the time of queueing alone. */
  lemma QueuedStays(e: Event, title: Value, at: string, idea: Id, build: Id, status: string, reason: Option<string>)
    requires e.typ.BuildStarted? || e.typ.BuildCompleted?
    requires e == BuildEvent(e.typ, at, build, title, idea, status, reason) && status in {"running", "rejected"}
    ensures Sets(e, "queued_at") == None
  {
    BuildSets(e, title, at, idea, build, status, reason);
    assert (status + "_at")[0] == 'r' && "queued_at"[0] == 'q';
    assert Keeps(e.typ).Some? && "queued_at" !in Keeps(e.typ).value;
  }

  lemma TaskSets(e: Event, title: Value, at: string, idea: Id, build: Id, task: Id)
    requires e == TaskEvent(at, task, title, idea, build)
    ensures IdOf(e) == task && NameIs(e) == title && TimedAs(e) == "created_at"
    ensures Sets(e, "kind") == Some(Str("product-build")) && Sets(e, "status") == Some(Str("ready"))
    ensures Sets(e, "created_at") == Some(Str(at))
  {
    assert "created_at"[0] == 'c' && "kind"[0] == 'k' && "status"[0] == 's';
  }

  lemma TaskNames(e: Event, title: Value, at: string, idea: Id, build: Id, task: Id)
    requires e == TaskEvent(at, task, title, idea, build)
    ensures Sets(e, "risk_class") == Some(Num(2.0)) && Sets(e, "subject_id") == Some(Str(idea))
    ensures Sets(e, "build_run_id") == Some(Str(build))
  {
    assert "created_at"[0] == 'c' && "risk_class"[0] == 'r' && "subject_id"[0] == 's' && "build_run_id"[0] == 'b';
  }

  lemma AnnouncedReads(g: Graph, title: Value, at: string, d: Dispatched)
    requires WellFormed(g) && d.task != "" && d.task !in g.entities
    ensures var r := Project(g, TaskEvent(at, d.task, title, d.idea, d.build));
            d.task in r.graph.entities && TaskReads(r.graph.entities[d.task], title, at, d)
  {
    var e := TaskEvent(at, d.task, title, d.idea, d.build);
    TaskSets(e, title, at, d.idea, d.build, d.task);
    TaskNames(e, title, at, d.idea, d.build, d.task);
    HeadIs(g, e);
    MemberIs(g, e, "kind");
    MemberIs(g, e, "status");
    MemberIs(g, e, "created_at");
    MemberIs(g, e, "risk_class");
    MemberIs(g, e, "subject_id");
    MemberIs(g, e, "build_run_id");
  }

  /** A start is a build.started, a task.created, and a build.started or, if it was refused, a build.completed. */
  lemma StartEmits(title: Value, at: string, d: Dispatched)
    ensures var es := StartEvents(title, at, d);
            && |es| == 3 && es[0].typ.BuildStarted? && es[1].typ.TaskCreated?
            && (es[2].typ.BuildStarted? <==> d.result.accepted) && (es[2].typ.BuildCompleted? <==> !d.result.accepted)
            && IdOf(es[0]) == d.build && IdOf(es[1]) == d.task && IdOf(es[2]) == d.build
            && forall i :: 0 <= i < 3 ==> es[i].at == at
  {}

  /** The three outcomes of starting a build on a graph, one event after another. */
  lemma StartIsThree(g: Graph, title: Value, at: string, d: Dispatched) returns (k: Graph, l: Graph, h: Graph)
    requires WellFormed(g) && d.idea != "" && d.idea in g.entities && FreshNames([(d.build, d.task)], g.entities.Keys, {})
    ensures Project(g, BuildEvent(BuildStarted, at, d.build, title, d.idea, "queued", None)) == Outcome(k, true)
    ensures Project(k, TaskEvent(at, d.task, title, d.idea, d.build)) == Outcome(l, true)
    ensures Project(l, OutcomeEvent(title, at, d)) == Outcome(h, true)
    ensures ProjectAll(g, StartEvents(title, at, d)) == Outcome(h, true)
  {
    var es := StartEvents(title, at, d);
    h := StartEventsProject(g, title, at, d);
    assert es[..3] == es && es[..3][..2] == es[..2] && es[..2][..1] == es[..1] && es[..1][..0] == [];
    k := ProjectAll(g, es[..1]).graph;
    l := ProjectAll(g, es[..2]).graph;
    assert ProjectAll(g, es[..1]) == Project(g, es[0]);
    assert ProjectAll(g, es[..2]).ok && ProjectAll(g, es[..1]).ok;
    assert ProjectAll(g, es[..2]) == Project(k, es[1]);
    assert ProjectAll(g, es) == Project(l, es[2]);
  }

  /** `h` is `g` but for one entity, and every edge of `g` is still there. */
  ghost predicate Beside(g: Graph, h: Graph, id: Id) {
    && WellFormed(h) && CleanEdges(h)
    && (forall x :: x in g.entities && x != id ==> x in h.entities && h.entities[x] == g.entities[x])
    && (forall x :: x in h.entities ==> x in g.entities || x == id)
    && (forall s, k, d :: Linked(g, s, k, d) ==> Linked(h, s, k, d))
  }

  lemma EventIsBeside(g: Graph, e: Event)
    requires WellFormed(g) && CleanEdges(g) && SeparatorFree(e)
    ensures Beside(g, Project(g, e).graph, IdOf(e))
  {
    EdgesAre(g, e);
    EntityIs(g, e);
  }

  /** A build event draws its idea's edge. */
  lemma BuildJoined(g: Graph, e: Event, title: Value, at: string, idea: Id, build: Id, status: string, reason: Option<string>)
    requires WellFormed(g) && CleanEdges(g) && Clean(idea) && idea != "" && build != "" && idea in g.entities
    requires e.typ.BuildStarted? || e.typ.BuildCompleted?
    requires e == BuildEvent(e.typ, at, build, title, idea, status, reason) && Project(g, e).ok
    ensures Beside(g, Project(g, e).graph, build) && Linked(Project(g, e).graph, idea, "BUILT_BY", build)
  {
    BuildSets(e, title, at, idea, build, status, reason);
    assert Asks(e, idea, "BUILT_BY", build);
    EdgesAre(g, e);
    EventIsBeside(g, e);
  }

  lemma TaskJoined(g: Graph, title: Value, at: string, d: Dispatched)
    requires WellFormed(g) && CleanEdges(g) && Clean(d.idea) && d.idea != "" && d.task != "" && d.idea in g.entities
    requires Project(g, TaskEvent(at, d.task, title, d.idea, d.build)).ok
    ensures var h := Project(g, TaskEvent(at, d.task, title, d.idea, d.build)).graph;
            Beside(g, h, d.task) && Linked(h, d.idea, "TRIGGERED", d.task)
  {
    var e := TaskEvent(at, d.task, title, d.idea, d.build);
    TaskSets(e, title, at, d.idea, d.build, d.task);
    assert e.payload["subject_id"] == Str(d.idea);
    assert Asks(e, d.idea, "TRIGGERED", d.task);
    EdgesAre(g, e);
    EventIsBeside(g, e);
  }

  /** Three graphs, each beside the one before. */
  lemma ThreeBeside(g: Graph, k: Graph, l: Graph, h: Graph, build: Id, task: Id)
    requires Beside(g, k, build) && Beside(k, l, task) && Beside(l, h, build)
    requires build !in g.entities && task !in g.entities && build != task && task in l.entities
    ensures forall id :: id in g.entities ==> id in h.entities && h.entities[id] == g.entities[id]
    ensures task in h.entities && h.entities[task] == l.entities[task]
    ensures forall s, e, d :: Linked(g, s, e, d) || Linked(k, s, e, d) || Linked(l, s, e, d) ==> Linked(h, s, e, d)
  {}

  /** What the start leaves of build and task. */
  ghost predicate Leaves(h: Graph, title: Value, at: string, d: Dispatched) {
    && d.build in h.entities && BuildReads(h.entities[d.build], title, at, d)
    && d.task in h.entities && TaskReads(h.entities[d.task], title, at, d)
    && Linked(h, d.idea, "BUILT_BY", d.build) && Linked(h, d.idea, "TRIGGERED", d.task)
  }

  /** The first two events: the build is queued, the task announced. */
  lemma QueueLeaves(g: Graph, k: Graph, l: Graph, title: Value, at: string, d: Dispatched)
    requires WellFormed(g) && CleanEdges(g) && Clean(d.idea) && d.idea != "" && d.idea in g.entities
    requires d.build != "" && d.task != "" && d.build != d.task && d.build !in g.entities && d.task !in g.entities
    requires Project(g, BuildEvent(BuildStarted, at, d.build, title, d.idea, "queued", None)) == Outcome(k, true)
    requires Project(k, TaskEvent(at, d.task, title, d.idea, d.build)) == Outcome(l, true)
    ensures Beside(g, k, d.build) && Beside(k, l, d.task) && d.idea in l.entities
    ensures d.build in l.entities && Queued(l.entities[d.build], at)
    ensures d.task in l.entities && TaskReads(l.entities[d.task], title, at, d) && Linked(l, d.idea, "TRIGGERED", d.task)
  {
    var e := BuildEvent(BuildStarted, at, d.build, title, d.idea, "queued", None);
    QueuedReads(g, title, at, d);
    BuildJoined(g, e, title, at, d.idea, d.build, "queued", None);
    AnnouncedReads(k, title, at, d);
    TaskJoined(k, title, at, d);
  }

  lemma EndLeaves(l: Graph, h: Graph, title: Value, at: string, d: Dispatched)
    requires WellFormed(l) && CleanEdges(l) && Clean(d.idea) && d.idea != "" && d.idea in l.entities && d.build != ""
    requires d.build in l.entities && Queued(l.entities[d.build], at)
    requires Project(l, OutcomeEvent(title, at, d)) == Outcome(h, true)
    ensures Beside(l, h, d.build) && Linked(h, d.idea, "BUILT_BY", d.build)
    ensures d.build in h.entities && BuildReads(h.entities[d.build], title, at, d)
  {
    var e, r := OutcomeEvent(title, at, d), d.result;
    OutcomeReads(l, title, at, d);
    BuildJoined(l, e, title, at, d.idea, d.build, if r.accepted then "running" else "rejected",
                if r.accepted then None else Some(if r.error.Some? then r.error.value else r.transport));
  }

  /**
   * What starting a build leaves: the build with the dispatcher's answer as its status, the task as it was announced,
   * both linked from the idea, and everything else as it was.
   */
  lemma StartLeaves(g: Graph, title: Value, at: string, d: Dispatched) returns (h: Graph)
    requires WellFormed(g) && CleanEdges(g) && Clean(d.idea) && d.idea != "" && d.idea in g.entities
    requires FreshNames([(d.build, d.task)], g.entities.Keys, {})
    ensures ProjectAll(g, StartEvents(title, at, d)) == Outcome(h, true) && Leaves(h, title, at, d)
    ensures forall id :: id in g.entities ==> id in h.entities && h.entities[id] == g.entities[id]
    ensures forall s, k, x :: Linked(g, s, k, x) ==> Linked(h, s, k, x)
  {
    var k, l;
    k, l, h := StartIsThree(g, title, at, d);
    NamesFresh(d.build, d.task, g.entities.Keys, {});
    QueueLeaves(g, k, l, title, at, d);
    EndLeaves(l, h, title, at, d);
    ThreeBeside(g, k, l, h, d.build, d.task);
  }
}
