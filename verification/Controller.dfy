/** The factory controller: one tick reads the graph, selects ideas, and starts their builds. */
module Controller {
  import opened Values
  import opened GraphModel
  import opened GraphStore
  import opened Projector
  import Bus = EventBus
  import opened Router
  import opened Builds
  import Planner
  import PlannerChoice
  import Replay
  import Sorting

  type Idea = Planner.Idea

  /** What a tick takes from outside: fresh ids, the clock, and how the transport answers each task. */
  datatype Tick = Tick(limit: int, names: seq<(Id, Id)>, at: string, answer: TaskId -> Answer, written: TaskId -> bool)

  /** One entry of the tick's report. */
  datatype Dispatched = Dispatched(idea: Id, build: Id, task: Id, result: Result)

  function Reads(read: Entity -> Idea, es: seq<Entity>): seq<Idea> {
    seq(|es|, i requires 0 <= i < |es| => read(es[i]))
  }

  /** Ideas that no live or completed build excludes. */
  function Open(excluded: set<Value>, es: seq<Entity>): seq<Entity> {
    if es == [] then []
    else
      Open(excluded, es[..|es| - 1]) + if Str(es[|es| - 1].id) in excluded then [] else [es[|es| - 1]]
  }

  function ExcludedIdeas(bs: map<Id, Build>): set<Value> { set b | b in bs && Excludes(bs[b]) :: bs[b].idea }

  ghost function Candidates(g: Graph): seq<Entity>
    requires WellFormed(g)
  {
    Open(ExcludedIdeas(BuildsOf(g)), OfType(g, g.order, Some(IDEA)))
  }

  predicate FreshNames(names: seq<(Id, Id)>, ids: set<Id>, dispatched: set<TaskId>) {
    && (forall i :: 0 <= i < |names| ==>
          names[i].0 != "" && names[i].1 != "" && names[i].0 != names[i].1
          && names[i].0 !in ids && names[i].1 !in ids && names[i].1 !in dispatched)
    && (forall i, j :: 0 <= i < j < |names| ==>
          names[i].0 != names[j].0 && names[i].0 != names[j].1 && names[i].1 != names[j].0 && names[i].1 != names[j].1)
  }

  function StartedOf(ds: seq<Dispatched>): seq<Started> {
    seq(|ds|, i requires 0 <= i < |ds| => Started(ds[i].build, ds[i].idea, ds[i].result.accepted))
  }

  function TasksOf(ds: seq<Dispatched>): seq<TaskId> { seq(|ds|, i requires 0 <= i < |ds| => ds[i].task) }

  lemma {:induction false} OpenMembers(excluded: set<Value>, es: seq<Entity>, e: Entity)
    ensures e in Open(excluded, es) <==> e in es && Str(e.id) !in excluded
  {
    if es != [] {
      OpenMembers(excluded, es[..|es| - 1], e);
      SplitLast(es);
    }
  }

  ghost predicate DistinctEntities(es: seq<Entity>) {
    forall i, j :: 0 <= i < j < |es| ==> es[i].id != es[j].id
  }

  lemma {:induction false} OfTypeDistinct(g: Graph, ids: seq<Id>, typ: string)
    requires EntitiesStorable(g.entities) && NoRepeats(ids) && forall id :: id in ids ==> id in g.entities
    ensures DistinctEntities(OfType(g, ids, Some(typ)))
  {
    if ids != [] {
      var n := |ids| - 1;
      OfTypeDistinct(g, ids[..n], typ);
      forall e | e in OfType(g, ids[..n], Some(typ)) ensures e.id != ids[n] { OfTypeMembers(g, ids[..n], typ, e); }
    }
  }

  lemma {:induction false} OpenDistinct(excluded: set<Value>, es: seq<Entity>)
    requires DistinctEntities(es)
    ensures DistinctEntities(Open(excluded, es))
  {
    if es != [] {
      var n := |es| - 1;
      OpenDistinct(excluded, es[..n]);
      forall e | e in Open(excluded, es[..n]) ensures e.id != es[n].id {
        OpenMembers(excluded, es[..n], e);
        var i :| 0 <= i < n && es[..n][i] == e;
      }
    }
  }

  /** The entity is a build of the idea that has been neither rejected nor failed. */
  predicate Occupies(b: Entity, idea: Id) {
    && b.typ == "BuildRun" && "idea_id" in b.data && b.data["idea_id"] == Str(idea)
    && ("status" in b.data ==> b.data["status"] !in {Str("rejected"), Str("failed")})
  }

  /** A stored idea that no stored build occupies. */
  ghost predicate IsFree(g: Graph, e: Entity) {
    && e.id in g.entities && g.entities[e.id] == e && e.typ == "Idea"
    && forall b :: b in g.entities ==> !Occupies(g.entities[b], e.id)
  }

  lemma FreeIff(g: Graph, e: Entity)
    ensures IsFree(g, e) <==> IsIdea(g, e.id) && g.entities[e.id] == e && Live(BuildsOf(g), e.id) == {}
  {
    var live := Live(BuildsOf(g), e.id);
    forall b | b in g.entities ensures b in live <==> Occupies(g.entities[b], e.id) {
      assert b in BuildsOf(g) <==> g.entities[b].typ == "BuildRun";
    }
    if live != {} {
      var b :| b in live;
      assert b in g.entities;
    }
  }

  /** The candidates are exactly the free ideas: stored, and without a live build. */
  lemma CandidateIff(g: Graph, e: Entity)
    requires WellFormed(g)
    ensures e in Candidates(g) <==> IsFree(g, e)
    ensures e in Candidates(g) <==> IsIdea(g, e.id) && g.entities[e.id] == e && Live(BuildsOf(g), e.id) == {}
  {
    FreeIff(g, e);
    var bs := BuildsOf(g);
    OpenMembers(ExcludedIdeas(bs), OfType(g, g.order, Some(IDEA)), e);
    OfTypeMembers(g, g.order, IDEA, e);
    assert forall b :: b in Live(bs, e.id) ==> bs[b].idea in ExcludedIdeas(bs);
    if Str(e.id) in ExcludedIdeas(bs) {
      var b :| b in bs && Excludes(bs[b]) && bs[b].idea == Str(e.id);
      assert b in Live(bs, e.id);
    }
  }

  lemma CandidatesDistinct(g: Graph)
    requires WellFormed(g)
    ensures DistinctEntities(Candidates(g))
  {
    OfTypeDistinct(g, g.order, IDEA);
    OpenDistinct(ExcludedIdeas(BuildsOf(g)), OfType(g, g.order, Some(IDEA)));
  }

  // ------------------------------------------------------------------ what the tick reads off the builds

  function RunningCount(es: seq<Entity>): nat {
    if es == [] then 0
    else RunningCount(es[..|es| - 1]) + if Datum(es[|es| - 1], "status") == Str("running") then 1 else 0
  }

  function AlreadyBuilt(es: seq<Entity>): set<Value> {
    set e | e in es && Datum(e, "status") != Str("rejected") && Datum(e, "status") != Str("failed") :: Datum(e, "idea_id")
  }

  function RunningIds(es: seq<Entity>): set<Id> { set e | e in es && Datum(e, "status") == Str("running") :: e.id }

  lemma {:induction false} RunningCountIsSize(es: seq<Entity>)
    requires DistinctEntities(es)
    ensures RunningCount(es) == |RunningIds(es)|
  {
    if es != [] {
      var n := |es| - 1;
      RunningCountIsSize(es[..n]);
      SplitLast(es);
      if Datum(es[n], "status") == Str("running") {
        assert RunningIds(es) == RunningIds(es[..n]) + {es[n].id};
        assert es[n].id !in RunningIds(es[..n]);
      } else {
        assert RunningIds(es) == RunningIds(es[..n]);
      }
    }
  }

  lemma BuildEntities(g: Graph, es: seq<Entity>)
    requires WellFormed(g) && es == OfType(g, g.order, Some(BUILD_RUN))
    ensures RunningIds(es) == Running(BuildsOf(g)) && AlreadyBuilt(es) == ExcludedIdeas(BuildsOf(g))
    ensures RunningCount(es) == |Running(BuildsOf(g))|
  {
    var bs := BuildsOf(g);
    forall e: Entity ensures e in es <==> e.id in bs && g.entities[e.id] == e {
      OfTypeMembers(g, g.order, BUILD_RUN, e);
    }
    forall id | id in bs ensures g.entities[id] in es && g.entities[id].id == id {}
    OfTypeDistinct(g, g.order, BUILD_RUN);
    RunningCountIsSize(es);
    assert RunningIds(es) == Running(bs);
    forall v | v in ExcludedIdeas(bs) ensures v in AlreadyBuilt(es) {
      var b :| b in bs && Excludes(bs[b]) && bs[b].idea == v;
      assert g.entities[b] in es;
    }
    forall v | v in AlreadyBuilt(es) ensures v in ExcludedIdeas(bs) {
      var e :| e in es && Datum(e, "status") != Str("rejected") && Datum(e, "status") != Str("failed") && Datum(e, "idea_id") == v;
      assert bs[e.id] == Build(Datum(e, "idea_id"), Datum(e, "status"));
    }
  }

  lemma NamesFresh(buildId: Id, taskId: Id, ids: set<Id>, dispatched: set<TaskId>)
    requires FreshNames([(buildId, taskId)], ids, dispatched)
    ensures buildId != "" && taskId != "" && buildId != taskId
    ensures buildId !in ids && taskId !in ids && taskId !in dispatched
  {
    assert [(buildId, taskId)][0] == (buildId, taskId);
  }

  // ------------------------------------------------------------------ the events of a tick

  function Label(g: Graph, idea: Id): Value {
    var known := idea in g.entities && "name" in g.entities[idea].fields;
    List([Str("Build "), if known then g.entities[idea].fields["name"] else Undefined])
  }

  /** One build: queued, its task announced, and what the dispatcher's answer made of it. */
  function StartEvents(title: Value, at: string, d: Dispatched): seq<Event> {
    [BuildEvent(BuildStarted, at, d.build, title, d.idea, "queued", None),
     TaskEvent(at, d.task, title, d.idea, d.build),
     OutcomeEvent(title, at, d)]
  }

  /** The events before anything is dispatched. */
  function Announcement(title: Value, at: string, idea: Id, build: Id, task: Id): seq<Event> {
    [BuildEvent(BuildStarted, at, build, title, idea, "queued", None), TaskEvent(at, task, title, idea, build)]
  }

  lemma StartEventsParts(title: Value, at: string, d: Dispatched, before: seq<Event>)
    ensures before + Announcement(title, at, d.idea, d.build, d.task) + [OutcomeEvent(title, at, d)]
         == before + StartEvents(title, at, d)
  {}

  function OutcomeEvent(title: Value, at: string, d: Dispatched): Event {
    var r := d.result;
    BuildEvent(if r.accepted then BuildStarted else BuildCompleted, at, d.build, title, d.idea,
               if r.accepted then "running" else "rejected",
               if r.accepted then None else Some(if r.error.Some? then r.error.value else r.transport))
  }

  /** The events of the builds of a tick, which started on `g`. */
  function TickEvents(g: Graph, at: string, ds: seq<Dispatched>): seq<Event> {
    if ds == [] then []
    else TickEvents(g, at, ds[..|ds| - 1]) + StartEvents(Label(g, ds[|ds| - 1].idea), at, ds[|ds| - 1])
  }

  /** All the events projected, and the graph is where they lead. */
  ghost predicate Projects(g: Graph, events: seq<Event>, h: Graph) {
    ProjectAll(g, events) == Outcome(h, true) && Bus.Lived(g, events) == h
  }

  lemma ProjectsSnoc(g: Graph, events: seq<Event>, h: Graph, e: Event)
    requires Projects(g, events, h) && Project(h, e).ok
    ensures Projects(g, events + [e], Project(h, e).graph)
  {
    Bus.LivedSnoc(g, events, e);
  }

  lemma {:induction false} ProjectsConcat(g: Graph, a: seq<Event>, h: Graph, b: seq<Event>, k: Graph)
    requires Projects(g, a, h) && Projects(h, b, k)
    ensures Projects(g, a + b, k)
  {
    Bus.LivedConcat(g, a, b);
    ProjectAllConcat(g, a, b);
  }

  lemma {:induction false} ProjectAllConcat(g: Graph, a: seq<Event>, b: seq<Event>)
    requires ProjectAll(g, a).ok
    ensures ProjectAll(g, a + b) == ProjectAll(ProjectAll(g, a).graph, b)
  {
    if b == [] {
      assert a + b == a;
    } else {
      var n := |b| - 1;
      ProjectAllConcat(g, a, b[..n]);
      assert (a + b)[..|a + b| - 1] == a + b[..n];
    }
  }

  /** What stays: every entity that was there. */
  ghost predicate Kept(g: Graph, h: Graph) {
    forall i :: i in g.entities ==> i in h.entities && h.entities[i] == g.entities[i]
  }

  /** The first two events of a build project: it is queued, and its task stands beside it. */
  lemma QueueProjects(g: Graph, title: Value, at: string, d: Dispatched) returns (h: Graph)
    requires d.idea != "" && d.idea in g.entities && FreshNames([(d.build, d.task)], g.entities.Keys, {})
    ensures Projects(g, StartEvents(title, at, d)[..2], h)
    ensures BuildsOf(h) == BuildsOf(g)[d.build := Build(Str(d.idea), Str("queued"))]
    ensures h.entities.Keys == g.entities.Keys + {d.build, d.task} && Kept(g, h)
  {
    NamesFresh(d.build, d.task, g.entities.Keys, {});
    var es := StartEvents(title, at, d);
    assert Projects(g, [], g) && es[..1] == [] + [es[0]] && es[..2] == es[..1] + [es[1]];
    BuildEventProjects(g, BuildStarted, at, d.build, title, d.idea, "queued", None);
    ProjectsSnoc(g, [], g, es[0]);
    var k := Project(g, es[0]).graph;
    TaskEventProjects(k, at, d.task, title, d.idea, d.build);
    ProjectsSnoc(g, es[..1], k, es[1]);
    h := Project(k, es[1]).graph;
  }

  /** The three events of one build project, record it with its outcome, and touch nothing that was there. */
  lemma StartEventsProject(g: Graph, title: Value, at: string, d: Dispatched) returns (h: Graph)
    requires d.idea != "" && d.idea in g.entities && FreshNames([(d.build, d.task)], g.entities.Keys, {})
    ensures Projects(g, StartEvents(title, at, d), h)
    ensures BuildsOf(h) == BuildsOf(g)[d.build := BuildFor(Started(d.build, d.idea, d.result.accepted))]
    ensures h.entities.Keys == g.entities.Keys + {d.build, d.task} && Kept(g, h)
  {
    NamesFresh(d.build, d.task, g.entities.Keys, {});
    var es := StartEvents(title, at, d);
    var k := QueueProjects(g, title, at, d);
    OutcomeProjects(k, title, at, d);
    ProjectsSnoc(g, es[..2], k, es[2]);
    assert es == es[..2] + [es[2]];
    h := Project(k, es[2]).graph;
    UpdateTwice(BuildsOf(g), d.build, Build(Str(d.idea), Str("queued")), BuildFor(Started(d.build, d.idea, d.result.accepted)));
  }

  lemma OutcomeProjects(g: Graph, title: Value, at: string, d: Dispatched)
    requires d.idea != "" && d.idea in g.entities && d.build != "" && d.build in g.entities && d.idea != d.build
    ensures var r := Project(g, OutcomeEvent(title, at, d));
            && r.ok && r.graph.entities.Keys == g.entities.Keys
            && BuildsOf(r.graph) == BuildsOf(g)[d.build := BuildFor(Started(d.build, d.idea, d.result.accepted))]
            && (forall i :: i != d.build && i in g.entities ==> r.graph.entities[i] == g.entities[i])
  {
    var e := OutcomeEvent(title, at, d);
    var r := d.result;
    BuildEventProjects(g, e.typ, at, d.build, title, d.idea, if r.accepted then "running" else "rejected",
                       if r.accepted then None else Some(if r.error.Some? then r.error.value else r.transport));
  }

  lemma UpdateTwice(m: map<Id, Build>, k: Id, x: Build, y: Build)
    ensures m[k := x][k := y] == m[k := y]
  {}

  /** The names of the builds of a tick, in order. */
  ghost predicate NamedBy(ds: seq<Dispatched>, names: seq<(Id, Id)>) {
    |ds| <= |names| && forall i :: 0 <= i < |ds| ==> ds[i].build == names[i].0 && ds[i].task == names[i].1
  }

  lemma TickEventsSnoc(g: Graph, at: string, ds: seq<Dispatched>, d: Dispatched)
    ensures TickEvents(g, at, ds + [d]) == TickEvents(g, at, ds) + StartEvents(Label(g, d.idea), at, d)
  {
    assert (ds + [d])[..|ds|] == ds;
  }

  /** Where the builds of a tick lead: `h`, with `added` the ids stored on the way. Sealed, so that it is used whole. */
  ghost predicate Reached(g: Graph, at: string, ds: seq<Dispatched>, h: Graph, added: set<Id>) {
    forall mark {:trigger Unsealed(mark)} :: Unsealed(mark) ==>
      && Projects(g, TickEvents(g, at, ds), h) && Kept(g, h)
      && BuildsOf(h) == WithStarted(BuildsOf(g), StartedOf(ds))
      && h.entities.Keys == g.entities.Keys + added
  }

  lemma NothingReached(g: Graph, at: string)
    ensures Reached(g, at, [], g, {})
  {}

  /** One more build of the tick. */
  lemma NextBuild(g: Graph, at: string, ds: seq<Dispatched>, d: Dispatched, h: Graph, added: set<Id>) returns (k: Graph)
    requires Reached(g, at, ds, h, added)
    requires d.idea != "" && d.idea in g.entities && FreshNames([(d.build, d.task)], g.entities.Keys + added, {})
    ensures Reached(g, at, ds + [d], k, added + {d.build, d.task})
  {
    assert Unsealed(true);
    k := StartEventsProject(h, Label(g, d.idea), at, d);
    ProjectsConcat(g, TickEvents(g, at, ds), h, StartEvents(Label(g, d.idea), at, d), k);
    TickEventsSnoc(g, at, ds, d);
    StartedSnoc(BuildsOf(g), ds, d);
  }

  // ------------------------------------------------------------------ between the events of a tick

  /** The first `k` events of a tick: some builds' events whole, and the first `r` of the next one's, if any. */
  ghost predicate CutAt(g: Graph, at: string, ds: seq<Dispatched>, k: nat, q: nat, r: nat)
    requires k <= |TickEvents(g, at, ds)|
  {
    if r == 0 then q <= |ds| && TickEvents(g, at, ds)[..k] == TickEvents(g, at, ds[..q])
    else q < |ds| && r <= 2
         && TickEvents(g, at, ds)[..k] == TickEvents(g, at, ds[..q]) + StartEvents(Label(g, ds[q].idea), at, ds[q])[..r]
  }

  lemma {:induction false} FindCut(g: Graph, at: string, ds: seq<Dispatched>, k: nat) returns (q: nat, r: nat)
    requires k <= |TickEvents(g, at, ds)|
    ensures CutAt(g, at, ds, k, q, r)
  {
    q, r := 0, 0;
    if ds != [] {
      var n := |ds| - 1;
      var front, last := TickEvents(g, at, ds[..n]), StartEvents(Label(g, ds[n].idea), at, ds[n]);
      ConcatUpTo(front, last, k);
      if k <= |front| {
        q, r := FindCut(g, at, ds[..n], k);
        assert ds[..n][..q] == ds[..q];
      } else if k == |front + last| {
        q := |ds|;
        assert ds[..q] == ds && last[..3] == last;
      } else {
        q, r := n, k - |front|;
      }
    }
  }

  lemma ConcatUpTo<T>(a: seq<T>, b: seq<T>, k: nat)
    requires k <= |a| + |b|
    ensures (a + b)[..k] == if k <= |a| then a[..k] else a + b[..k - |a|]
  {}

  /** Once the build is queued, and its task announced, its outcome is still open. */
  lemma StartPrefix(h: Graph, title: Value, at: string, d: Dispatched, r: nat)
    requires d.idea != "" && d.idea in h.entities && FreshNames([(d.build, d.task)], h.entities.Keys, {})
    requires 1 <= r <= 2
    ensures BuildsOf(Bus.Lived(h, StartEvents(title, at, d)[..r])) == BuildsOf(h)[d.build := Build(Str(d.idea), Str("queued"))]
  {
    NamesFresh(d.build, d.task, h.entities.Keys, {});
    var es := StartEvents(title, at, d);
    BuildEventProjects(h, BuildStarted, at, d.build, title, d.idea, "queued", None);
    Bus.LivedSnoc(h, [], es[0]);
    assert es[..1] == [] + [es[0]] && es[..2] == es[..1] + [es[1]];
    if r == 2 {
      TaskEventProjects(Project(h, es[0]).graph, at, d.task, title, d.idea, d.build);
      Bus.LivedSnoc(h, es[..1], es[1]);
    }
  }

  ghost function UsedIds(names: seq<(Id, Id)>): set<Id> { Used(names).0 + Used(names).1 }

  /** Started under fresh names on ideas that are there, the builds of a tick are recorded beside the old ones. */
  lemma {:induction false} TickEventsProject(g: Graph, at: string, ds: seq<Dispatched>, names: seq<(Id, Id)>,
                                             dispatched: set<TaskId>)
      returns (h: Graph)
    requires NamedBy(ds, names) && FreshNames(names, g.entities.Keys, dispatched)
    requires forall i :: 0 <= i < |ds| ==> ds[i].idea != "" && ds[i].idea in g.entities
    ensures Reached(g, at, ds, h, UsedIds(names[..|ds|]))
  {
    if ds == [] {
      h := g;
      NothingReached(g, at);
      assert UsedIds(names[..0]) == {};
    } else {
      var n := |ds| - 1;
      var h' := TickEventsProject(g, at, ds[..n], names, dispatched);
      NextNameFresh(names, g.entities.Keys, dispatched, n);
      h := NextBuild(g, at, ds[..n], ds[n], h', UsedIds(names[..n]));
      assert ds == ds[..n] + [ds[n]];
      NextUsed(names, n);
    }
  }

  lemma NextUsed(names: seq<(Id, Id)>, n: nat)
    requires n < |names|
    ensures UsedIds(names[..n + 1]) == UsedIds(names[..n]) + {names[n].0, names[n].1}
  {
    assert names[..n + 1] == names[..n] + [names[n]];
    UsedSnoc(names[..n], names[n]);
  }

  lemma NextNameFresh(names: seq<(Id, Id)>, ids: set<Id>, dispatched: set<TaskId>, n: nat)
    requires n < |names| && FreshNames(names, ids, dispatched)
    ensures FreshNames([(names[n].0, names[n].1)], ids + UsedIds(names[..n]), {})
  {
    UsedFresh(names, ids, dispatched, n);
    assert ids + UsedIds(names[..n]) == ids + Used(names[..n]).0 + Used(names[..n]).1;
    FewerDispatched(names[n], ids + UsedIds(names[..n]), dispatched + Used(names[..n]).1);
  }

  lemma FewerDispatched(name: (Id, Id), ids: set<Id>, dispatched: set<TaskId>)
    requires FreshNames([name], ids, dispatched)
    ensures FreshNames([(name.0, name.1)], ids, {})
  {
    assert [name][0] == name && [(name.0, name.1)] == [name];
  }

  /** The build and task ids that a prefix of the names has used up. */
  ghost function Used(names: seq<(Id, Id)>): (set<Id>, set<Id>) {
    if names == [] then ({}, {})
    else
      var u := Used(names[..|names| - 1]);
      (u.0 + {names[|names| - 1].0}, u.1 + {names[|names| - 1].1})
  }

  lemma {:induction false} UsedAmong(names: seq<(Id, Id)>, id: Id)
    ensures id in Used(names).0 ==> exists i :: 0 <= i < |names| && names[i].0 == id
    ensures id in Used(names).1 ==> exists i :: 0 <= i < |names| && names[i].1 == id
  {
    if names != [] {
      var n := |names| - 1;
      UsedAmong(names[..n], id);
      if id in Used(names[..n]).0 {
        var i :| 0 <= i < n && names[..n][i].0 == id;
        assert names[i].0 == id;
      }
      if id in Used(names[..n]).1 {
        var i :| 0 <= i < n && names[..n][i].1 == id;
        assert names[i].1 == id;
      }
    }
  }

  lemma UsedFresh(names: seq<(Id, Id)>, ids: set<Id>, dispatched: set<TaskId>, n: nat)
    requires n < |names| && FreshNames(names, ids, dispatched)
    ensures var u := Used(names[..n]);
            FreshNames([names[n]], ids + u.0 + u.1, dispatched + u.1)
  {
    UsedAmong(names[..n], names[n].0);
    UsedAmong(names[..n], names[n].1);
  }

  lemma NextFresh(names: seq<(Id, Id)>, ids: set<Id>, dispatched: set<TaskId>, n: nat, later: set<Id>, handled: set<TaskId>)
    requires n < |names| && FreshNames(names, ids, dispatched)
    requires later == ids + UsedIds(names[..n]) && handled == dispatched + Used(names[..n]).1
    ensures FreshNames([names[n]], later, handled)
  {
    UsedFresh(names, ids, dispatched, n);
    assert later == ids + Used(names[..n]).0 + Used(names[..n]).1;
  }

  lemma StartedSnoc(bs: map<Id, Build>, ds: seq<Dispatched>, d: Dispatched)
    ensures WithStarted(bs, StartedOf(ds + [d]))
         == WithStarted(bs, StartedOf(ds))[d.build := BuildFor(Started(d.build, d.idea, d.result.accepted))]
    ensures TasksOf(ds + [d]) == TasksOf(ds) + [d.task]
  {
    assert StartedOf(ds + [d]) == StartedOf(ds) + [Started(d.build, d.idea, d.result.accepted)];
    assert (StartedOf(ds) + [Started(d.build, d.idea, d.result.accepted)])[..|ds|] == StartedOf(ds);
  }

  lemma UsedSnoc(names: seq<(Id, Id)>, name: (Id, Id))
    ensures Used(names + [name]) == (Used(names).0 + {name.0}, Used(names).1 + {name.1})
  {
    assert (names + [name])[..|names|] == names;
  }


  /** Builds that fit the graph: fresh names, stored ideas, admissible and within the spare capacity. Sealed. */
  ghost predicate Orderly(g: Graph, ds: seq<Dispatched>, names: seq<(Id, Id)>, dispatched: set<TaskId>, maxBuilding: nat) {
    forall mark {:trigger Unsealed(mark)} :: Unsealed(mark) ==>
      && NamedBy(ds, names) && FreshNames(names, g.entities.Keys, dispatched)
      && (forall i :: 0 <= i < |ds| ==> ds[i].idea != "" && ds[i].idea in g.entities)
      && Sound(BuildsOf(g), maxBuilding) && Admissible(BuildsOf(g), StartedOf(ds))
      && |ds| <= maxBuilding - |Running(BuildsOf(g))|
  }

  /** Once the events are emitted, capacity and one live build per idea hold. Sealed, to be used whole. */
  ghost predicate SoundAfter(g: Graph, events: seq<Event>, maxBuilding: nat) {
    forall mark {:trigger Unsealed(mark)} :: Unsealed(mark) ==> Sound(BuildsOf(Bus.Lived(g, events)), maxBuilding)
  }

  /** After the first `q` builds. */
  lemma BuildsKeepSound(g: Graph, at: string, ds: seq<Dispatched>, names: seq<(Id, Id)>, dispatched: set<TaskId>,
                        maxBuilding: nat, q: nat)
    requires Orderly(g, ds, names, dispatched, maxBuilding) && q <= |ds|
    ensures SoundAfter(g, TickEvents(g, at, ds[..q]), maxBuilding)
  {
    assert Unsealed(true);
    var h := TickEventsProject(g, at, ds[..q], names, dispatched);
    assert StartedOf(ds)[..q] == StartedOf(ds[..q]);
    PartKeepsSound(BuildsOf(g), StartedOf(ds), q, maxBuilding);
  }

  /** After the first `q` builds and the first `r` events of the next one. */
  lemma PartKeepsCapacity(g: Graph, at: string, ds: seq<Dispatched>, names: seq<(Id, Id)>, dispatched: set<TaskId>,
                          maxBuilding: nat, q: nat, r: nat)
    requires Orderly(g, ds, names, dispatched, maxBuilding) && q < |ds| && 1 <= r <= 2
    ensures SoundAfter(g, TickEvents(g, at, ds[..q]) + StartEvents(Label(g, ds[q].idea), at, ds[q])[..r], maxBuilding)
  {
    assert Unsealed(true);
    var start := StartEvents(Label(g, ds[q].idea), at, ds[q]);
    var h := TickEventsProject(g, at, ds[..q], names, dispatched);
    Bus.LivedConcat(g, TickEvents(g, at, ds[..q]), start[..r]);
    NextNameFresh(names, g.entities.Keys, dispatched, q);
    StartPrefix(h, Label(g, ds[q].idea), at, ds[q], r);
    assert StartedOf(ds)[..q] == StartedOf(ds[..q]);
    QueuedKeepsSound(BuildsOf(g), StartedOf(ds), q, maxBuilding);
  }

  /** After any number of their events. */
  lemma EventsKeepSound(g: Graph, at: string, ds: seq<Dispatched>, names: seq<(Id, Id)>, dispatched: set<TaskId>,
                        maxBuilding: nat, k: nat)
    requires Orderly(g, ds, names, dispatched, maxBuilding) && k <= |TickEvents(g, at, ds)|
    ensures SoundAfter(g, TickEvents(g, at, ds)[..k], maxBuilding)
  {
    var q, r := FindCut(g, at, ds, k);
    if r == 0 {
      BuildsKeepSound(g, at, ds, names, dispatched, maxBuilding, q);
    } else {
      PartKeepsCapacity(g, at, ds, names, dispatched, maxBuilding, q, r);
    }
  }

  // ------------------------------------------------------------------ what a tick changes

  /** Emitted events, transport calls, stored results, and the first failed projection if there was one. */
  datatype Ledger = Ledger(events: seq<Event>, transports: seq<TaskId>, results: map<TaskId, Result>,
                           failure: Option<Bus.Failure>)

  /** The ledger once one more build has been started. */
  function LedgerAfter(l: Ledger, title: Value, at: string, d: Dispatched): Ledger {
    Ledger(l.events + StartEvents(title, at, d), l.transports + [d.task], l.results[d.task := d.result], l.failure)
  }

  ghost predicate ResultsKept(ds: seq<Dispatched>, results: map<TaskId, Result>) {
    forall i :: 0 <= i < |ds| ==> ds[i].task in results && results[ds[i].task] == ds[i].result
  }

  lemma ResultsStep(ds: seq<Dispatched>, results: map<TaskId, Result>, d: Dispatched)
    requires ResultsKept(ds, results) && d.task !in results
    ensures ResultsKept(ds + [d], results[d.task := d.result])
  {}

  /** The ledger after the builds `ds`, started on `g` under the ids `names`. Sealed, so that it is used whole. */
  ghost predicate Ongoing(g: Graph, at: string, names: seq<(Id, Id)>, l0: Ledger, ds: seq<Dispatched>, l: Ledger) {
    forall mark {:trigger Unsealed(mark)} :: Unsealed(mark) ==>
      && l.events == l0.events + TickEvents(g, at, ds)
      && l.transports == l0.transports + TasksOf(ds)
      && l.results.Keys == l0.results.Keys + Used(names).1
      && ResultsKept(ds, l.results) && l.failure == l0.failure
  }

  lemma OngoingStart(g: Graph, at: string, l: Ledger)
    ensures Ongoing(g, at, [], l, [], l)
  {
    assert l.events + TickEvents(g, at, []) == l.events && l.transports + TasksOf([]) == l.transports;
  }

  lemma OngoingStep(g: Graph, at: string, names: seq<(Id, Id)>, l0: Ledger, ds: seq<Dispatched>, l: Ledger, d: Dispatched)
    requires Ongoing(g, at, names, l0, ds, l) && d.task !in l.results
    ensures Ongoing(g, at, names + [(d.build, d.task)], l0, ds + [d], LedgerAfter(l, Label(g, d.idea), at, d))
  {
    assert Unsealed(true);
    TickEventsSnoc(g, at, ds, d);
    UsedSnoc(names, (d.build, d.task));
    ResultsStep(ds, l.results, d);
    assert TasksOf(ds + [d]) == TasksOf(ds) + [d.task];
    var start := StartEvents(Label(g, d.idea), at, d);
    assert l0.events + TickEvents(g, at, ds) + start == l0.events + (TickEvents(g, at, ds) + start);
    assert l0.transports + TasksOf(ds) + [d.task] == l0.transports + (TasksOf(ds) + [d.task]);
  }

  class FactoryController {
    const bus: Bus.EventBus
    const router: RouterDispatcher
    const minBuildScore: real
    const maxBuilding: nat
    const known: set<string>
    const collate: Planner.IdOrder
    const aligned: Idea -> bool
    const read: Entity -> Idea

    constructor (bus: Bus.EventBus, router: RouterDispatcher, minBuildScore: real, maxBuilding: nat,
                 known: set<string>, collate: Planner.IdOrder, aligned: Idea -> bool, read: Entity -> Idea)
      ensures this.bus == bus && this.router == router && this.minBuildScore == minBuildScore
      ensures this.maxBuilding == maxBuilding && this.known == known && this.collate == collate
      ensures this.aligned == aligned && this.read == read
    {
      this.bus, this.router, this.minBuildScore, this.maxBuilding := bus, router, minBuildScore, maxBuilding;
      this.known, this.collate, this.aligned, this.read := known, collate, aligned, read;
    }

    ghost predicate Valid()
      reads bus, bus.graph, router
    {
      bus.Valid() && router.Valid() && router.transport.Some?
    }

    /** Reading an idea keeps its id. */
    ghost predicate Configured() { forall e :: read(e).id == e.id }

    // ---------------------------------------------------------------- the selection

    function AlignedFirst(): (Idea, Idea) -> bool { (a: Idea, b: Idea) => aligned(a) || !aligned(b) }

    ghost function Ideas(g: Graph): seq<Idea>
      requires WellFormed(g)
    {
      Reads(read, Candidates(g))
    }

    /** The selection of a tick, aligned candidates brought to the front first. */
    ghost function Selection(g: Graph, limit: int): seq<Planner.Ranked>
      requires WellFormed(g)
    {
      Planner.Select(Sorting.Sort(AlignedFirst(), Ideas(g)), known, collate, minBuildScore, limit,
                     |Running(BuildsOf(g))|, maxBuilding)
    }

    /** Unless two candidates tie, the aligned-first sort before the planner leaves its choice as it is. */
    lemma PreSortIsIrrelevant(g: Graph, limit: int)
      requires WellFormed(g) && Planner.Collation(collate) && Planner.NoTies(Ideas(g), known, collate)
      ensures Selection(g, limit)
           == Planner.Select(Ideas(g), known, collate, minBuildScore, limit, |Running(BuildsOf(g))|, maxBuilding)
    {
      Sorting.SortBag(AlignedFirst(), Ideas(g));
      Planner.SelectIgnoresOrder(Ideas(g), Sorting.Sort(AlignedFirst(), Ideas(g)), known, collate, minBuildScore, limit,
                                 |Running(BuildsOf(g))|, maxBuilding);
    }

    /** It leaves every ranking as it is exactly when no unaligned candidate stands before an aligned one it ties with. */
    lemma PreSortDecidesIff(ideas: seq<Idea>)
      requires Planner.Collation(collate)
      ensures Planner.Rank(Sorting.Sort(AlignedFirst(), ideas), known, collate) == Planner.Rank(ideas, known, collate) <==>
                forall i, j :: 0 <= i < j < |ideas| && Planner.Tied(ideas[i], ideas[j], known, collate) ==>
                  aligned(ideas[i]) || !aligned(ideas[j])
    {
      Planner.RankPreSortedIff(AlignedFirst(), ideas, known, collate);
    }

    lemma SortedIdeas(g: Graph, i: Idea)
      requires WellFormed(g)
      ensures i in Sorting.Sort(AlignedFirst(), Ideas(g)) ==> exists e :: e in Candidates(g) && read(e) == i
    {
      Sorting.SortBag(AlignedFirst(), Ideas(g));
      if i in Sorting.Sort(AlignedFirst(), Ideas(g)) {
        assert i in multiset(Sorting.Sort(AlignedFirst(), Ideas(g)));
        assert i in multiset(Ideas(g));
        var j :| 0 <= j < |Ideas(g)| && Ideas(g)[j] == i;
        assert Candidates(g)[j] in Candidates(g);
      }
    }

    /** A selected idea is stored, has no live build, and scores at least the threshold. */
    lemma SelectedIsFree(g: Graph, limit: int, i: nat)
      requires WellFormed(g) && Configured() && i < |Selection(g, limit)|
      ensures var x := Selection(g, limit)[i];
              x.idea.id != "" && IsIdea(g, x.idea.id) && Live(BuildsOf(g), x.idea.id) == {}
              && x.total == Planner.Total(x.idea, known) && x.total >= minBuildScore
    {
      Planner.SelectedWorthy(Sorting.Sort(AlignedFirst(), Ideas(g)), known, collate, minBuildScore, limit,
                             |Running(BuildsOf(g))|, maxBuilding, i);
      SortedIdeas(g, Selection(g, limit)[i].idea);
      var e :| e in Candidates(g) && read(e) == Selection(g, limit)[i].idea;
      CandidateIff(g, e);
    }

    /**
     * The best start first: a free idea that is not among the selected scores no higher than any of them, and at an
     * equal score its id comes later.
     */
    lemma NoBetterIdeaWaits(g: Graph, limit: int, e: Entity, k: nat)
      requires WellFormed(g) && Configured() && Planner.Collation(collate)
      requires IsFree(g, e) && k < |Selection(g, limit)|
      requires forall i :: 0 <= i < |Selection(g, limit)| ==> Selection(g, limit)[i].idea.id != e.id
      ensures var y := Selection(g, limit)[k];
              y.total > Planner.Total(read(e), known)
              || (y.total == Planner.Total(read(e), known) && collate(y.idea.id, e.id))
    {
      var sorted := Sorting.Sort(AlignedFirst(), Ideas(g));
      CandidateIff(g, e);
      IdeaSorted(g, e);
      SelectedIsFree(g, limit, k);
      PlannerChoice.NoBetterLeftOut(sorted, known, collate, minBuildScore, limit, |Running(BuildsOf(g))|, maxBuilding,
                                    read(e), k);
    }

    lemma IdeaSorted(g: Graph, e: Entity)
      requires WellFormed(g) && e in Candidates(g)
      ensures read(e) in Sorting.Sort(AlignedFirst(), Ideas(g))
    {
      var j :| 0 <= j < |Candidates(g)| && Candidates(g)[j] == e;
      assert Ideas(g)[j] == read(e);
      Sorting.SortBag(AlignedFirst(), Ideas(g));
      assert read(e) in multiset(Ideas(g));
      assert read(e) in multiset(Sorting.Sort(AlignedFirst(), Ideas(g)));
    }

    /** As many start as limit, spare capacity and worthy free ideas together allow. */
    lemma SelectionSize(g: Graph, limit: int)
      requires WellFormed(g) && Planner.Collation(collate) && limit >= 0
      ensures |Selection(g, limit)|
           == Planner.Min(limit, Planner.Min(Spare(BuildsOf(g), maxBuilding),
                                             PlannerChoice.WorthyCount(Ideas(g), known, minBuildScore)))
    {
      var sorted := Sorting.Sort(AlignedFirst(), Ideas(g));
      PlannerChoice.SelectIsBeginning(sorted, known, collate, minBuildScore, limit, |Running(BuildsOf(g))|, maxBuilding);
      Sorting.SortBag(AlignedFirst(), Ideas(g));
      PlannerChoice.CountOfBag(Ideas(g), sorted, known, minBuildScore);
    }

    lemma SelectionDistinct(g: Graph, limit: int)
      requires WellFormed(g) && Configured()
      ensures Planner.DistinctRanked(Selection(g, limit))
    {
      CandidatesDistinct(g);
      assert Planner.DistinctIds(Ideas(g));
      Sorting.SortBag(AlignedFirst(), Ideas(g));
      Planner.DistinctPermuted(Ideas(g), Sorting.Sort(AlignedFirst(), Ideas(g)));
      Planner.SelectedDistinct(Sorting.Sort(AlignedFirst(), Ideas(g)), known, collate, minBuildScore, limit,
                               |Running(BuildsOf(g))|, maxBuilding);
    }

    // ---------------------------------------------------------------- a tick, on values

    /** What the tick does for its `i`-th idea: one transport call, whose outcome it records. */
    ghost function Entry(g: Graph, t: Tick, i: nat): Dispatched
      requires WellFormed(g) && router.transport.Some? && i < |Selection(g, t.limit)| <= |t.names|
    {
      Dispatched(Selection(g, t.limit)[i].idea.id, t.names[i].0, t.names[i].1,
                 Settled(router.transport.value, t.names[i].1, t.answer(t.names[i].1)))
    }

    ghost function Report(g: Graph, t: Tick): (ds: seq<Dispatched>)
      requires WellFormed(g) && router.transport.Some? && |Selection(g, t.limit)| <= |t.names|
      ensures |ds| == |Selection(g, t.limit)| && forall i :: 0 <= i < |ds| ==> ds[i] == Entry(g, t, i)
    {
      seq(|Selection(g, t.limit)|, i requires 0 <= i < |Selection(g, t.limit)| => Entry(g, t, i))
    }

    /** There are ids enough, and they are fresh. */
    ghost predicate Supplied(g: Graph, t: Tick, dispatched: set<TaskId>)
      requires WellFormed(g)
    {
      |Selection(g, t.limit)| <= |t.names| && FreshNames(t.names, g.entities.Keys, dispatched)
    }

    /** The first `n` builds of a tick, and where they lead. */
    lemma PartOfTick(g: Graph, t: Tick, dispatched: set<TaskId>, n: nat) returns (h: Graph)
      requires WellFormed(g) && Configured() && router.transport.Some? && Supplied(g, t, dispatched)
      requires n <= |Report(g, t)|
      ensures Reached(g, t.at, Report(g, t)[..n], h, UsedIds(t.names[..n]))
    {
      forall i | 0 <= i < n ensures Report(g, t)[i].idea != "" && Report(g, t)[i].idea in g.entities {
        SelectedIsFree(g, t.limit, i);
      }
      h := TickEventsProject(g, t.at, Report(g, t)[..n], t.names, dispatched);
    }

    /** The builds a tick starts are admissible and, with a limit of at least 0, within the spare capacity. */
    lemma TickIsAdmissible(g: Graph, t: Tick, dispatched: set<TaskId>)
      requires WellFormed(g) && Configured() && router.transport.Some? && Supplied(g, t, dispatched)
      ensures Admissible(BuildsOf(g), StartedOf(Report(g, t)))
      ensures t.limit >= 0 ==> |Report(g, t)| <= Spare(BuildsOf(g), maxBuilding)
    {
      var added := StartedOf(Report(g, t));
      SelectionDistinct(g, t.limit);
      forall i | 0 <= i < |added| ensures added[i].id !in BuildsOf(g) && Live(BuildsOf(g), added[i].idea) == {} {
        SelectedIsFree(g, t.limit, i);
      }
      if t.limit >= 0 {
        Planner.CapacityIffLimit(t.limit, Planner.Capacity(maxBuilding, |Running(BuildsOf(g))|));
      }
    }

    /** What the events of a tick do to the recorded builds. */
    lemma TickBuilds(g: Graph, t: Tick, dispatched: set<TaskId>)
      requires WellFormed(g) && Configured() && router.transport.Some? && Supplied(g, t, dispatched)
      ensures var h := Bus.Lived(g, TickEvents(g, t.at, Report(g, t)));
              && BuildsOf(h) == WithStarted(BuildsOf(g), StartedOf(Report(g, t)))
              && (t.limit >= 0 ==> Ticks(BuildsOf(g), BuildsOf(h), maxBuilding))
    {
      var h := PartOfTick(g, t, dispatched, |Report(g, t)|);
      assert Report(g, t)[..|Report(g, t)|] == Report(g, t);
      assert Unsealed(true);
      TickIsAdmissible(g, t, dispatched);
    }

    // ---------------------------------------------------------------- a tick, step by step

    /** The bus handler's dispatch and the controller's own: one transport call, one answer. */
    method Deliver(taskId: Id, answer: Answer, written: bool) returns (r: Result)
      requires router.Valid() && router.transport.Some? && taskId !in router.dispatchedBuilds
      modifies router
      ensures router.Valid()
      ensures r == Settled(router.transport.value, taskId, answer)
      ensures router.transports == old(router.transports) + [taskId]
      ensures router.buildResults == old(router.buildResults)[taskId := r]
    {
      var task := Router.Task(taskId, PRODUCT_BUILD, "ready");
      WholeNew(router.View(), task, answer, written);
      SecondDispatch(router.View(), task, answer, written, answer, written);
      var handled := router.Dispatch(task, answer, written);
      var result := router.Dispatch(task, answer, written);
      r := result.value;
    }

    /** Emit an event whose projection goes through. */
    method EmitSafely(e: Event)
      requires Valid() && Project(bus.graph.View(), e).ok
      modifies bus, bus.graph
      ensures Valid() && bus.failure == old(bus.failure) && bus.projected == old(bus.projected) + [e]
      ensures bus.graph.View() == Project(old(bus.graph.View()), e).graph
    {
      var ok := bus.AppendAndProject(e);
    }

    /** Queue the build, announce its task (the bus dispatches that), dispatch again, record the outcome. */
    method StartBuild(title: Value, idea: Id, buildId: Id, taskId: Id, at: string, answer: Answer, written: bool)
      returns (d: Dispatched)
      requires Valid() && idea != "" && idea in bus.graph.View().entities
      requires FreshNames([(buildId, taskId)], bus.graph.View().entities.Keys, router.dispatchedBuilds)
      modifies bus, bus.graph, router
      ensures Valid() && bus.failure == old(bus.failure)
      ensures d == Dispatched(idea, buildId, taskId, Settled(router.transport.value, taskId, answer))
      ensures bus.projected == old(bus.projected) + StartEvents(title, at, d)
      ensures router.transports == old(router.transports) + [taskId]
      ensures router.buildResults == old(router.buildResults)[taskId := d.result]
    {
      NamesFresh(buildId, taskId, bus.graph.View().entities.Keys, router.dispatchedBuilds);
      Announce(title, idea, buildId, taskId, at);
      var r := Deliver(taskId, answer, written);
      d := Dispatched(idea, buildId, taskId, r);
      StartEventsParts(title, at, d, old(bus.projected));
      Conclude(title, at, d);
    }

    /** The queued build and its task, before anything is dispatched. */
    method Announce(title: Value, idea: Id, buildId: Id, taskId: Id, at: string)
      requires Valid() && idea != "" && idea in bus.graph.View().entities && idea != buildId
      requires buildId != "" && taskId != "" && buildId != taskId
      requires buildId !in bus.graph.View().entities && taskId !in bus.graph.View().entities
      modifies bus, bus.graph
      ensures Valid() && bus.failure == old(bus.failure)
      ensures bus.projected == old(bus.projected) + Announcement(title, at, idea, buildId, taskId)
      ensures idea in bus.graph.View().entities && buildId in bus.graph.View().entities
    {
      BuildEventProjects(bus.graph.View(), BuildStarted, at, buildId, title, idea, "queued", None);
      EmitSafely(BuildEvent(BuildStarted, at, buildId, title, idea, "queued", None));
      TaskEventProjects(bus.graph.View(), at, taskId, title, idea, buildId);
      EmitSafely(TaskEvent(at, taskId, title, idea, buildId));
    }

    /** The build's final status follows the dispatcher's answer. */
    method Conclude(title: Value, at: string, d: Dispatched)
      requires Valid() && d.idea != "" && d.build != "" && d.idea != d.build
      requires d.idea in bus.graph.View().entities && d.build in bus.graph.View().entities
      modifies bus, bus.graph
      ensures Valid() && bus.failure == old(bus.failure)
      ensures bus.projected == old(bus.projected) + [OutcomeEvent(title, at, d)]
    {
      OutcomeProjects(bus.graph.View(), title, at, d);
      EmitSafely(OutcomeEvent(title, at, d));
    }

    /** Between two builds: a valid controller, whose state reads `l`. Sealed, so that it is used whole. */
    ghost predicate At(l: Ledger)
      reads bus, bus.graph, router
    {
      forall mark {:trigger Unsealed(mark)} :: Unsealed(mark) ==>
        Valid() && l == Ledger(bus.projected, router.transports, router.buildResults, bus.failure)
    }

    /** StartBuild, told as a change of the ledger. */
    method StartNext(t: Tick, ghost l: Ledger, title: Value, idea: Id, name: (Id, Id)) returns (d: Dispatched)
      requires At(l) && idea != "" && idea in Bus.Lived(EMPTY, l.events).entities && router.transport.Some?
      requires FreshNames([name], Bus.Lived(EMPTY, l.events).entities.Keys, l.results.Keys)
      modifies bus, bus.graph, router
      ensures At(LedgerAfter(l, title, t.at, d))
      ensures d == Dispatched(idea, name.0, name.1, Settled(router.transport.value, name.1, t.answer(name.1)))
    {
      assert Unsealed(true);
      d := StartBuild(title, idea, name.0, name.1, t.at, t.answer(name.1), t.written(name.1));
    }

    /** The first `n` builds of the tick are started and reported. Sealed, so that it is used whole. */
    ghost predicate Stage(g: Graph, t: Tick, l0: Ledger, ds: seq<Dispatched>, l: Ledger, n: nat)
      requires WellFormed(g) && router.transport.Some?
    {
      forall mark {:trigger Unsealed(mark)} :: Unsealed(mark) ==>
        && Configured() && Supplied(g, t, l0.results.Keys) && g == Bus.Lived(EMPTY, l0.events)
        && n <= |Report(g, t)| && ds == Report(g, t)[..n]
        && Ongoing(g, t.at, t.names[..n], l0, ds, l)
    }

    lemma StageStart(g: Graph, t: Tick, l0: Ledger)
      requires WellFormed(g) && router.transport.Some? && Configured() && Supplied(g, t, l0.results.Keys)
      requires g == Bus.Lived(EMPTY, l0.events)
      ensures Stage(g, t, l0, [], l0, 0)
    {
      OngoingStart(g, t.at, l0);
      assert t.names[..0] == [] && Report(g, t)[..0] == [];
    }

    /** The graph that the builds so far have led to holds every idea, and what it holds beside is used up. */
    lemma StageGraph(g: Graph, t: Tick, l0: Ledger, ds: seq<Dispatched>, l: Ledger, n: nat)
      requires WellFormed(g) && router.transport.Some? && Stage(g, t, l0, ds, l, n)
      ensures var h := Bus.Lived(EMPTY, l.events);
              && n <= |t.names| && h.entities.Keys == g.entities.Keys + UsedIds(t.names[..n])
              && l.results.Keys == l0.results.Keys + Used(t.names[..n]).1
    {
      assert Unsealed(true);
      var h := PartOfTick(g, t, l0.results.Keys, n);
      Bus.LivedConcat(EMPTY, l0.events, TickEvents(g, t.at, Report(g, t)[..n]));
    }

    /** The selection of the tick. Sealed, so that it is used whole. */
    ghost predicate Chosen(g: Graph, t: Tick, selected: seq<Planner.Ranked>)
      requires WellFormed(g)
    {
      forall mark {:trigger Unsealed(mark)} :: Unsealed(mark) ==> selected == Selection(g, t.limit)
    }

    /** The graph's half: the next idea is there. */
    lemma NextIsThere(g: Graph, t: Tick, l0: Ledger, ds: seq<Dispatched>, l: Ledger, n: nat, selected: seq<Planner.Ranked>)
      requires WellFormed(g) && router.transport.Some? && Stage(g, t, l0, ds, l, n) && Chosen(g, t, selected) && n < |selected|
      ensures selected[n].idea.id != "" && selected[n].idea.id in Bus.Lived(EMPTY, l.events).entities
    {
      StageGraph(g, t, l0, ds, l, n);
      assert selected == Selection(g, t.limit) && Configured() by { assert Unsealed(true); }
      SelectedIsFree(g, t.limit, n);
    }

    lemma SupplyInStage(g: Graph, t: Tick, l0: Ledger, ds: seq<Dispatched>, l: Ledger, n: nat)
      requires WellFormed(g) && router.transport.Some? && Stage(g, t, l0, ds, l, n)
      ensures FreshNames(t.names, g.entities.Keys, l0.results.Keys) && |Selection(g, t.limit)| <= |t.names|
    {
      assert Unsealed(true);
    }

    /** The names' half: the next name is fresh. */
    lemma NextIsNamed(g: Graph, t: Tick, l0: Ledger, ds: seq<Dispatched>, l: Ledger, n: nat, selected: seq<Planner.Ranked>)
      requires WellFormed(g) && router.transport.Some? && Stage(g, t, l0, ds, l, n) && Chosen(g, t, selected) && n < |selected|
      ensures n < |t.names|
      ensures FreshNames([t.names[n]], Bus.Lived(EMPTY, l.events).entities.Keys, l.results.Keys)
    {
      StageGraph(g, t, l0, ds, l, n);
      SupplyInStage(g, t, l0, ds, l, n);
      assert selected == Selection(g, t.limit) by { assert Unsealed(true); }
      NextFresh(t.names, g.entities.Keys, l0.results.Keys, n, Bus.Lived(EMPTY, l.events).entities.Keys, l.results.Keys);
    }

    /** The next build of a tick can be started. */
    lemma NextIsReady(g: Graph, t: Tick, l0: Ledger, ds: seq<Dispatched>, l: Ledger, n: nat, selected: seq<Planner.Ranked>)
      requires WellFormed(g) && router.transport.Some? && Stage(g, t, l0, ds, l, n) && Chosen(g, t, selected) && n < |selected|
      ensures n < |t.names| && t.names[n].1 !in l.results
      ensures selected[n].idea.id != "" && selected[n].idea.id in Bus.Lived(EMPTY, l.events).entities
      ensures FreshNames([t.names[n]], Bus.Lived(EMPTY, l.events).entities.Keys, l.results.Keys)
    {
      NextIsThere(g, t, l0, ds, l, n, selected);
      NextIsNamed(g, t, l0, ds, l, n, selected);
      assert [t.names[n]][0] == t.names[n];
    }

    lemma NextStage(g: Graph, t: Tick, l0: Ledger, ds: seq<Dispatched>, l: Ledger, n: nat, selected: seq<Planner.Ranked>,
                    d: Dispatched)
      requires WellFormed(g) && router.transport.Some? && Stage(g, t, l0, ds, l, n) && Chosen(g, t, selected)
      requires n < |selected| && n < |t.names| && t.names[n].1 !in l.results
      requires d == Dispatched(selected[n].idea.id, t.names[n].0, t.names[n].1,
                               Settled(router.transport.value, t.names[n].1, t.answer(t.names[n].1)))
      ensures Stage(g, t, l0, ds + [d], LedgerAfter(l, Label(g, d.idea), t.at, d), n + 1)
    {
      assert && Configured() && Supplied(g, t, l0.results.Keys) && g == Bus.Lived(EMPTY, l0.events)
             && ds == Report(g, t)[..n] && Ongoing(g, t.at, t.names[..n], l0, ds, l) && selected == Selection(g, t.limit)
      by { assert Unsealed(true); }
      NextOngoing(g, t, l0, ds, l, n, d);
    }

    lemma NextOngoing(g: Graph, t: Tick, l0: Ledger, ds: seq<Dispatched>, l: Ledger, n: nat, d: Dispatched)
      requires WellFormed(g) && router.transport.Some? && |Selection(g, t.limit)| <= |t.names|
      requires n < |Report(g, t)| && ds == Report(g, t)[..n] && d == Entry(g, t, n) && d.task !in l.results
      requires Ongoing(g, t.at, t.names[..n], l0, ds, l)
      ensures Ongoing(g, t.at, t.names[..n + 1], l0, ds + [d], LedgerAfter(l, Label(g, d.idea), t.at, d))
      ensures ds + [d] == Report(g, t)[..n + 1]
    {
      OngoingStep(g, t.at, t.names[..n], l0, ds, l, d);
      assert t.names[..n + 1] == t.names[..n] + [(d.build, d.task)];
    }

    /** Start the selected builds in order. */
    method StartAll(t: Tick, selected: seq<Planner.Ranked>, titles: seq<Value>, ghost g: Graph, ghost l0: Ledger)
      returns (ds: seq<Dispatched>, ghost l: Ledger)
      requires At(l0) && router.transport.Some? && WellFormed(g) && Stage(g, t, l0, [], l0, 0)
      requires Chosen(g, t, selected) && |titles| == |selected|
      requires forall i :: 0 <= i < |titles| ==> titles[i] == Label(g, selected[i].idea.id)
      modifies bus, bus.graph, router
      ensures At(l) && Stage(g, t, l0, ds, l, |selected|)
    {
      ds, l := [], l0;
      for n := 0 to |selected|
        invariant At(l) && Stage(g, t, l0, ds, l, n)
      {
        var d;
        d, l := StartOne(t, selected, titles[n], g, l0, ds, l, n);
        ds := ds + [d];
      }
    }

    /** Start one of them. */
    method StartOne(t: Tick, selected: seq<Planner.Ranked>, title: Value, ghost g: Graph, ghost l0: Ledger,
                    ghost ds: seq<Dispatched>, ghost l: Ledger, n: nat)
      returns (d: Dispatched, ghost next: Ledger)
      requires At(l) && router.transport.Some? && WellFormed(g) && Stage(g, t, l0, ds, l, n)
      requires Chosen(g, t, selected) && n < |selected| && title == Label(g, selected[n].idea.id)
      modifies bus, bus.graph, router
      ensures At(next) && Stage(g, t, l0, ds + [d], next, n + 1)
    {
      NextIsReady(g, t, l0, ds, l, n, selected);
      d := StartNext(t, l, title, selected[n].idea.id, t.names[n]);
      NextStage(g, t, l0, ds, l, n, selected, d);
      next := LedgerAfter(l, title, t.at, d);
    }

    /** One tick. */
    method RunTick(t: Tick) returns (active: nat, ds: seq<Dispatched>)
      requires Valid() && Configured() && Supplied(bus.graph.View(), t, router.dispatchedBuilds)
      modifies bus, bus.graph, router
      ensures Valid() && bus.failure == old(bus.failure)
      ensures active == |Running(BuildsOf(old(bus.graph.View())))| && ds == Report(old(bus.graph.View()), t)
      ensures bus.projected == old(bus.projected) + TickEvents(old(bus.graph.View()), t.at, ds)
      ensures BuildsOf(bus.graph.View()) == WithStarted(BuildsOf(old(bus.graph.View())), StartedOf(ds))
      ensures router.transports == old(router.transports) + TasksOf(ds) && ResultsKept(ds, router.buildResults)
      ensures router.dispatchedBuilds == old(router.dispatchedBuilds) + Used(t.names[..|ds|]).1
      ensures t.limit >= 0 ==> Ticks(BuildsOf(old(bus.graph.View())), BuildsOf(bus.graph.View()), maxBuilding)
    {
      ghost var g := bus.graph.View();
      ghost var l0 := Ledger(bus.projected, router.transports, router.buildResults, bus.failure);
      var selected, titles;
      active, selected, titles := Choose(t.limit);
      StageStart(g, t, l0);
      assert At(l0);
      ghost var l;
      ds, l := StartAll(t, selected, titles, g, l0);
      TickTold(g, t, l0, ds, l);
      assert Unsealed(true);
    }

    /** The part of a tick that only reads. */
    method Choose(limit: int) returns (active: nat, selected: seq<Planner.Ranked>, titles: seq<Value>)
      requires Valid()
      ensures active == |Running(BuildsOf(bus.graph.View()))| && selected == Selection(bus.graph.View(), limit)
      ensures |titles| == |selected|
      ensures forall i :: 0 <= i < |titles| ==> titles[i] == Label(bus.graph.View(), selected[i].idea.id)
    {
      var ideas := bus.graph.FindEntities(Some(IDEA));
      var builds := bus.graph.FindEntities(Some(BUILD_RUN));
      BuildEntities(bus.graph.View(), builds);
      active := RunningCount(builds);
      var candidates := Sorting.Sort(AlignedFirst(), Reads(read, Open(AlreadyBuilt(builds), ideas)));
      selected := Planner.Select(candidates, known, collate, minBuildScore, limit, active, maxBuilding);
      titles := Titles(selected);
    }

    /** The names of the selected ideas, read at the start of the tick. */
    method Titles(selected: seq<Planner.Ranked>) returns (titles: seq<Value>)
      ensures |titles| == |selected|
      ensures forall i :: 0 <= i < |titles| ==> titles[i] == Label(bus.graph.View(), selected[i].idea.id)
    {
      titles := [];
      for n := 0 to |selected|
        invariant |titles| == n
        invariant forall i :: 0 <= i < n ==> titles[i] == Label(bus.graph.View(), selected[i].idea.id)
      {
        var e := bus.graph.GetEntity(selected[n].idea.id);
        var named := e.Some? && "name" in e.value.fields;
        titles := titles + [List([Str("Build "), if named then e.value.fields["name"] else Undefined])];
      }
    }

    lemma TickTold(g: Graph, t: Tick, l0: Ledger, ds: seq<Dispatched>, l: Ledger)
      requires WellFormed(g) && router.transport.Some? && Supplied(g, t, l0.results.Keys)
      requires Stage(g, t, l0, ds, l, |Selection(g, t.limit)|)
      ensures && ds == Report(g, t) && l.failure == l0.failure
              && l.events == l0.events + TickEvents(g, t.at, ds)
              && l.transports == l0.transports + TasksOf(ds) && ResultsKept(ds, l.results)
              && l.results.Keys == l0.results.Keys + Used(t.names[..|ds|]).1
              && BuildsOf(Bus.Lived(EMPTY, l.events)) == WithStarted(BuildsOf(g), StartedOf(ds))
              && (t.limit >= 0 ==> Ticks(BuildsOf(g), BuildsOf(Bus.Lived(EMPTY, l.events)), maxBuilding))
    {
      assert Unsealed(true);
      assert Report(g, t)[..|Report(g, t)|] == Report(g, t);
      Bus.LivedConcat(EMPTY, l0.events, TickEvents(g, t.at, Report(g, t)));
      TickBuilds(g, t, l0.results.Keys);
    }

    // ---------------------------------------------------------------- a factory over time

    /** The graph the emitted events have led to. */
    ghost function GraphOf(f: Factory): (g: Graph)
      ensures WellFormed(g)
    {
      LivedWellFormed(f.events);
      Bus.Lived(EMPTY, f.events)
    }

    /**
     * A tick with ids enough, fresh ones, and a limit of at least 0; or any event at all, whether or not it
     * projects, that starts no build and revives none: only ticks start builds.
     */
    ghost predicate Allowed(f: Factory, m: Move)
      requires router.transport.Some?
    {
      match m
      case Ticked(t) => t.limit >= 0 && Supplied(GraphOf(f), t, f.dispatched)
      case Emitted(e) => StartsNothing(GraphOf(f), e)
    }

    /** What a move emits, and which tasks it dispatches. */
    ghost function Moved(f: Factory, m: Move): Factory
      requires router.transport.Some? && Allowed(f, m)
    {
      match m
      case Ticked(t) =>
        var ds := Report(GraphOf(f), t);
        Factory(f.events + TickEvents(GraphOf(f), t.at, ds), f.dispatched + Used(t.names[..|ds|]).1)
      case Emitted(e) => f.(events := f.events + [e])
    }

    ghost predicate Runs(f: Factory, moves: seq<Move>)
      requires router.transport.Some?
      decreases |moves|
    {
      moves == [] || (Allowed(f, moves[0]) && Runs(Moved(f, moves[0]), moves[1..]))
    }

    ghost function After(f: Factory, moves: seq<Move>): Factory
      requires router.transport.Some? && Runs(f, moves)
      decreases |moves|
    {
      if moves == [] then f else After(Moved(f, moves[0]), moves[1..])
    }

    lemma ReportIsOrderly(g: Graph, t: Tick, dispatched: set<TaskId>)
      requires WellFormed(g) && Configured() && router.transport.Some? && Supplied(g, t, dispatched) && t.limit >= 0
      requires Sound(BuildsOf(g), maxBuilding)
      ensures Orderly(g, Report(g, t), t.names, dispatched, maxBuilding)
    {
      TickIsAdmissible(g, t, dispatched);
      forall i | 0 <= i < |Report(g, t)| ensures Report(g, t)[i].idea != "" && Report(g, t)[i].idea in g.entities {
        SelectedIsFree(g, t.limit, i);
      }
    }

    /** After any number of a tick's events. */
    lemma TickAlwaysSound(g: Graph, t: Tick, dispatched: set<TaskId>, ds: seq<Dispatched>, k: nat)
      requires WellFormed(g) && Configured() && router.transport.Some? && Supplied(g, t, dispatched) && t.limit >= 0
      requires Sound(BuildsOf(g), maxBuilding) && ds == Report(g, t) && k <= |TickEvents(g, t.at, ds)|
      ensures SoundAfter(g, TickEvents(g, t.at, ds)[..k], maxBuilding)
    {
      ReportIsOrderly(g, t, dispatched);
      EventsKeepSound(g, t.at, ds, t.names, dispatched, maxBuilding, k);
    }

    /** At every moment of a move, from its first event to its last. */
    lemma MoveKeepsSound(f: Factory, m: Move, k: nat)
      requires Configured() && router.transport.Some? && Allowed(f, m) && Sound(BuildsOf(GraphOf(f)), maxBuilding)
      requires |f.events| <= k <= |Moved(f, m).events|
      ensures Sound(BuildsOf(Bus.Lived(EMPTY, Moved(f, m).events[..k])), maxBuilding)
    {
      match m
      case Ticked(t) =>
        LivedUpTo(f.events, TickEvents(GraphOf(f), t.at, Report(GraphOf(f), t)), k);
        TickAlwaysSound(GraphOf(f), t, f.dispatched, Report(GraphOf(f), t), k - |f.events|);
        assert Unsealed(true);
      case Emitted(e) =>
        LivedUpTo(f.events, [e], k);
        EventKeepsSound(GraphOf(f), e, k - |f.events|);
    }

    lemma EventKeepsSound(g: Graph, e: Event, k: nat)
      requires StartsNothing(g, e) && Sound(BuildsOf(g), maxBuilding) && k <= 1
      ensures Sound(BuildsOf(Bus.Lived(g, [e][..k])), maxBuilding)
    {
      if k == 0 {
        assert [e][..0] == [];
      } else {
        assert [e][..1] == [] + [e];
        Bus.LivedSnoc(g, [], e);
        StartsNothingIff(g, e);
        CalmKeepsSound(BuildsOf(g), BuildsOf(Project(g, e).graph), maxBuilding);
      }
    }

    lemma {:induction false} EventsGrow(f: Factory, moves: seq<Move>)
      requires router.transport.Some? && Runs(f, moves)
      ensures f.events <= After(f, moves).events
      decreases |moves|
    {
      if moves != [] { EventsGrow(Moved(f, moves[0]), moves[1..]); }
    }

    /**
     * Over any sequence of ticks and of other events, failing projections included, and between any two events of
     * a tick: at no moment do more than maxBuilding builds run, and at no moment has an idea two builds that are
     * neither rejected nor failed.
     */
    lemma {:induction false} AlwaysWithinCapacity(f: Factory, moves: seq<Move>, k: nat)
      requires Configured() && router.transport.Some? && Runs(f, moves) && Sound(BuildsOf(GraphOf(f)), maxBuilding)
      requires |f.events| <= k <= |After(f, moves).events|
      ensures Sound(BuildsOf(Bus.Lived(EMPTY, After(f, moves).events[..k])), maxBuilding)
      decreases |moves|
    {
      if moves == [] {
        assert f.events[..k] == f.events;
      } else {
        var next := Moved(f, moves[0]);
        EventsGrow(next, moves[1..]);
        if k <= |next.events| {
          MoveKeepsSound(f, moves[0], k);
          assert After(f, moves).events[..k] == next.events[..k];
        } else {
          MoveKeepsSound(f, moves[0], |next.events|);
          assert next.events[..|next.events|] == next.events;
          AlwaysWithinCapacity(next, moves[1..], k);
        }
      }
    }

    /** One move of the factory, made: the bus and the router are where the move leads. */
    method Perform(m: Move)
      requires Valid() && Configured() && Allowed(Factory(bus.projected, router.dispatchedBuilds), m)
      modifies bus, bus.graph, router
      ensures Valid()
      ensures Factory(bus.projected, router.dispatchedBuilds) == Moved(old(Factory(bus.projected, router.dispatchedBuilds)), m)
    {
      match m {
        case Ticked(t) =>
          var active, ds := RunTick(t);
        case Emitted(e) =>
          var ok := bus.AppendAndProject(e);
      }
    }
  }

  lemma LivedUpTo(past: seq<Event>, more: seq<Event>, k: nat)
    requires |past| <= k <= |past + more|
    ensures Bus.Lived(EMPTY, (past + more)[..k]) == Bus.Lived(Bus.Lived(EMPTY, past), more[..k - |past|])
  {
    assert (past + more)[..k] == past + more[..k - |past|];
    Bus.LivedConcat(EMPTY, past, more[..k - |past|]);
  }

  /** The factory as its events tell it, and the ids its router has seen. */
  datatype Factory = Factory(events: seq<Event>, dispatched: set<TaskId>)

  datatype Move = Ticked(tick: Tick) | Emitted(event: Event)

  lemma {:induction false} LivedWellFormed(events: seq<Event>)
    ensures WellFormed(Bus.Lived(EMPTY, events))
  {
    if events == [] {
      EmptyWellFormed();
    } else {
      var n := |events| - 1;
      LivedWellFormed(events[..n]);
      Replay.ExecWellFormed(Bus.Lived(EMPTY, events[..n]), Commands(events[n]));
    }
  }
}
