/**
 * The builds a graph records, what the controller's events do to them, and what admission
 * keeps: capacity, and one live build per idea.
 */
module Builds {
  import opened Values
  import opened GraphModel
  import opened Projector

  const BUILD_RUN := "BuildRun"
  const IDEA := "Idea"

  datatype Build = Build(idea: Value, status: Value)

  function Datum(e: Entity, k: string): Value { if k in e.data then e.data[k] else Undefined }

  /** The BuildRun entities by id. */
  function BuildsOf(g: Graph): map<Id, Build> {
    map id | id in g.entities && g.entities[id].typ == BUILD_RUN ::
      Build(Datum(g.entities[id], "idea_id"), Datum(g.entities[id], "status"))
  }

  predicate IsIdea(g: Graph, id: Id) { id in g.entities && g.entities[id].typ == IDEA }

  predicate RunningBuild(b: Build) { b.status == Str("running") }

  /** Rejected and failed builds re-admit their idea; every other build excludes it. */
  predicate Excludes(b: Build) { b.status != Str("rejected") && b.status != Str("failed") }

  function Running(bs: map<Id, Build>): set<Id> { set b | b in bs && RunningBuild(bs[b]) }

  function Live(bs: map<Id, Build>, idea: Id): set<Id> {
    set b | b in bs && bs[b].idea == Str(idea) && Excludes(bs[b])
  }

  // ------------------------------------------------------------------ the controller's events

  function BuildEvent(typ: EventType, at: string, id: Id, name: Value, idea: Id, status: string,
                      reason: Option<string>): Event {
    Event(typ, at, map["id" := Str(id), "name" := name, "idea_id" := Str(idea), "status" := Str(status),
                       "rejected_reason" := if reason.Some? then Str(reason.value) else Undefined])
  }

  function TaskEvent(at: string, id: Id, title: Value, idea: Id, build: Id): Event {
    Event(TaskCreated, at, map["id" := Str(id), "title" := title, "subject_id" := Str(idea),
                               "kind" := Str("product-build"), "risk_class" := Num(2.0), "status" := Str("ready"),
                               "build_run_id" := Str(build)])
  }

  /** The shape of a projection that puts one node and links it from a stored one. */
  lemma PutAndLink(g: Graph, e: Entity, src: Id, kind: string, props: map<string, Value>)
    requires Storable(e) && src in g.entities && src != ""
    ensures Exec(g, [Put(e), Connect(src, kind, e.id, props)])
         == Outcome(Link(Upsert(g, e), src, kind, e.id, props), true)
  {
    var cs := [Put(e), Connect(src, kind, e.id, props)];
    assert cs[..1] == [Put(e)];
    assert cs[..1][..0] == [];
    assert Exec(g, cs[..1]) == Outcome(Upsert(g, e), true);
  }

  lemma BuildEventCommands(typ: EventType, at: string, id: Id, name: Value, idea: Id, status: string,
                           reason: Option<string>) returns (e: Entity)
    requires typ.BuildStarted? || typ.BuildCompleted?
    requires id != "" && idea != ""
    ensures Commands(BuildEvent(typ, at, id, name, idea, status, reason))
         == [Put(e), Connect(idea, "BUILT_BY", id, map["at" := Str(at)])]
    ensures e.id == id && e.typ == BUILD_RUN && Datum(e, "idea_id") == Str(idea)
    ensures "status" in e.data && e.data["status"] == Str(status)
    ensures "idea_id" in e.data && e.data["idea_id"] == Str(idea)
  {
    var ev := BuildEvent(typ, at, id, name, idea, status, reason);
    var p := ev.payload;
    assert Text(p, "id") == id && Text(p, "idea_id") == idea && BuildStatus(ev) == status;
    e := BuildCommands(ev)[0].entity;
    var stamp := status + "_at";
    assert stamp[|stamp| - 1] == 't' && "status"[5] == 's' && "idea_id"[6] == 'd';
    assert stamp != "status" && stamp != "idea_id";
  }

  lemma UpsertBuild(g: Graph, e: Entity)
    requires e.typ == BUILD_RUN && "status" in e.data && "idea_id" in e.data
    ensures BuildsOf(Upsert(g, e)) == BuildsOf(g)[e.id := Build(e.data["idea_id"], e.data["status"])]
  {
    var m := Merged(g, e);
    assert m.data["status"] == e.data["status"] && m.data["idea_id"] == e.data["idea_id"];
  }

  lemma UpsertOther(g: Graph, e: Entity)
    requires e.typ != BUILD_RUN && e.id !in g.entities
    ensures BuildsOf(Upsert(g, e)) == BuildsOf(g)
  {}

  lemma LinkBuilds(g: Graph, src: Id, kind: string, dst: Id, props: map<string, Value>)
    ensures Link(g, src, kind, dst, props).entities == g.entities
    ensures BuildsOf(Link(g, src, kind, dst, props)) == BuildsOf(g)
  {}

  /** A build event records the build under its id with its status, and touches no other build. */
  lemma BuildEventProjects(g: Graph, typ: EventType, at: string, id: Id, name: Value, idea: Id, status: string,
                           reason: Option<string>)
    requires typ.BuildStarted? || typ.BuildCompleted?
    requires id != "" && idea != "" && idea in g.entities && idea != id
    ensures var r := Project(g, BuildEvent(typ, at, id, name, idea, status, reason));
            && r.ok && r.graph.entities.Keys == g.entities.Keys + {id}
            && BuildsOf(r.graph) == BuildsOf(g)[id := Build(Str(idea), Str(status))]
            && (forall i :: i != id && i in g.entities ==> r.graph.entities[i] == g.entities[i])
  {
    var e := BuildEventCommands(typ, at, id, name, idea, status, reason);
    PutAndLink(g, e, idea, "BUILT_BY", map["at" := Str(at)]);
    UpsertBuild(g, e);
    LinkBuilds(Upsert(g, e), idea, "BUILT_BY", id, map["at" := Str(at)]);
  }

  lemma TaskEventCommands(at: string, id: Id, title: Value, idea: Id, build: Id) returns (e: Entity)
    requires id != "" && idea != ""
    ensures Commands(TaskEvent(at, id, title, idea, build))
         == [Put(e), Connect(idea, "TRIGGERED", id, map["at" := Str(at)])]
    ensures e.id == id && e.typ == "Task"
  {
    var ev := TaskEvent(at, id, title, idea, build);
    assert Text(ev.payload, "id") == id && Text(ev.payload, "subject_id") == idea;
    e := Commands(ev)[0].entity;
  }

  /** A task with a fresh id changes no build. */
  lemma TaskEventProjects(g: Graph, at: string, id: Id, title: Value, idea: Id, build: Id)
    requires id != "" && idea != "" && idea in g.entities && id !in g.entities
    ensures var r := Project(g, TaskEvent(at, id, title, idea, build));
            && r.ok && r.graph.entities.Keys == g.entities.Keys + {id}
            && BuildsOf(r.graph) == BuildsOf(g)
            && (forall i :: i != id && i in g.entities ==> r.graph.entities[i] == g.entities[i])
  {
    var e := TaskEventCommands(at, id, title, idea, build);
    PutAndLink(g, e, idea, "TRIGGERED", map["at" := Str(at)]);
    UpsertOther(g, e);
    LinkBuilds(Upsert(g, e), idea, "TRIGGERED", id, map["at" := Str(at)]);
  }

  // ------------------------------------------------------------------ any other event

  predicate IsBuildEvent(e: Event) { e.typ.BuildStarted? || e.typ.BuildCompleted? }

  /** What a build event leaves under its id, whatever its payload holds: a member it does not carry stays. */
  function BuildAfter(g: Graph, e: Event): Build {
    var id, idea := Text(e.payload, "id"), Get(e.payload, "idea_id");
    Build(if !idea.Undefined? then idea else if id in g.entities then Datum(g.entities[id], "idea_id") else Undefined,
          Str(BuildStatus(e)))
  }

  lemma BuildNode(e: Event) returns (n: Entity)
    requires IsBuildEvent(e)
    ensures Commands(e) == [Put(n)] + LinkFrom(Text(e.payload, "idea_id"), "BUILT_BY", Text(e.payload, "id"), e.at)
    ensures n.id == Text(e.payload, "id") && n.typ == BUILD_RUN
    ensures Datum(n, "status") == Str(BuildStatus(e)) && "status" in n.data
    ensures "idea_id" in n.data <==> !Get(e.payload, "idea_id").Undefined?
    ensures "idea_id" in n.data ==> n.data["idea_id"] == Get(e.payload, "idea_id")
  {
    n := BuildCommands(e)[0].entity;
    var stamp := BuildStatus(e) + "_at";
    assert stamp[|stamp| - 1] == 't' && "status"[5] == 's' && "idea_id"[6] == 'd';
    assert stamp != "status" && stamp != "idea_id";
  }

  lemma UpsertAnyBuild(g: Graph, e: Event, n: Entity)
    requires n.id == Text(e.payload, "id") && n.typ == BUILD_RUN && "status" in n.data
    requires Datum(n, "status") == Str(BuildStatus(e))
    requires "idea_id" in n.data <==> !Get(e.payload, "idea_id").Undefined?
    requires "idea_id" in n.data ==> n.data["idea_id"] == Get(e.payload, "idea_id")
    ensures BuildsOf(Upsert(g, n)) == BuildsOf(g)[n.id := BuildAfter(g, e)]
  {
    var m := Merged(g, n);
    assert Datum(m, "status") == Str(BuildStatus(e));
    assert Datum(m, "idea_id") == BuildAfter(g, e).idea;
  }

  /** Any build event with an id, whether or not its link can be drawn, changes the builds at that id only. */
  lemma AnyBuildEventProjects(g: Graph, e: Event)
    requires IsBuildEvent(e)
    ensures BuildsOf(Project(g, e).graph)
         == if Text(e.payload, "id") == "" then BuildsOf(g) else BuildsOf(g)[Text(e.payload, "id") := BuildAfter(g, e)]
  {
    var n := BuildNode(e);
    var links := LinkFrom(Text(e.payload, "idea_id"), "BUILT_BY", n.id, e.at);
    var put := [Put(n)];
    assert put[..0] == [] && Exec(g, []) == Outcome(g, true);
    assert Exec(g, put) == Step(g, Put(n));
    if n.id != "" { UpsertAnyBuild(g, e, n); }
    if links == [] {
      assert Commands(e) == put;
    } else {
      assert Commands(e)[..1] == put && Commands(e)[1] == links[0];
      assert Exec(g, Commands(e)) == if Exec(g, put).ok then Step(Exec(g, put).graph, links[0]) else Exec(g, put);
    }
  }

  ghost predicate PutsNoBuild(cs: seq<Command>) {
    forall i :: 0 <= i < |cs| && cs[i].Put? ==> cs[i].entity.typ != BUILD_RUN
  }

  lemma {:induction false} NoBuildShrinks(g: Graph, cs: seq<Command>)
    requires PutsNoBuild(cs)
    ensures var bs, bs' := BuildsOf(g), BuildsOf(Exec(g, cs).graph); forall id :: id in bs' ==> id in bs && bs'[id] == bs[id]
  {
    if cs != [] { NoBuildShrinks(g, cs[..|cs| - 1]); }
  }

  predicate LinksManyTimes(t: EventType) {
    t.ProductGraduated? || t.ResearchRecorded? || t.ObservationRecorded? || t.StandardVersionRegistered?
    || t.ProcessRunStarted? || t.ProcessRunCompleted?
  }

  lemma FewPutNoBuild(e: Event)
    requires !IsBuildEvent(e) && !LinksManyTimes(e.typ)
    ensures PutsNoBuild(Commands(e))
  {}

  lemma GuardedPutNoBuild(e: Event)
    requires e.typ.StandardVersionRegistered? || e.typ.ProcessRunStarted? || e.typ.ProcessRunCompleted?
    ensures PutsNoBuild(Commands(e))
  {}

  lemma ManyPutNoBuild(e: Event)
    requires e.typ.ProductGraduated? || e.typ.ResearchRecorded? || e.typ.ObservationRecorded?
    ensures PutsNoBuild(Commands(e))
  {}

  /** Every other kind of event starts no build; reusing a build's id can only make that build disappear. */
  lemma OtherEventShrinks(g: Graph, e: Event)
    requires !IsBuildEvent(e)
    ensures var bs, bs' := BuildsOf(g), BuildsOf(Project(g, e).graph);
            forall id :: id in bs' ==> id in bs && bs'[id] == bs[id]
  {
    if e.typ.StandardVersionRegistered? || e.typ.ProcessRunStarted? || e.typ.ProcessRunCompleted? {
      GuardedPutNoBuild(e);
    } else if LinksManyTimes(e.typ) {
      ManyPutNoBuild(e);
    } else {
      FewPutNoBuild(e);
    }
    NoBuildShrinks(g, Commands(e));
  }

  // ------------------------------------------------------------------ admission over time

  /** One build a tick started: accepted and running, or rejected. */
  datatype Started = Started(id: Id, idea: Id, accepted: bool)

  function BuildFor(s: Started): Build { Build(Str(s.idea), Str(if s.accepted then "running" else "rejected")) }

  function WithStarted(bs: map<Id, Build>, added: seq<Started>): map<Id, Build> {
    if added == [] then bs
    else WithStarted(bs, added[..|added| - 1])[added[|added| - 1].id := BuildFor(added[|added| - 1])]
  }

  /** New ids, each idea at most once, and none that a live build excludes. */
  ghost predicate Admissible(bs: map<Id, Build>, added: seq<Started>) {
    && (forall i :: 0 <= i < |added| ==> added[i].id !in bs && Live(bs, added[i].idea) == {})
    && (forall i, j :: 0 <= i < j < |added| ==> added[i].id != added[j].id && added[i].idea != added[j].idea)
  }

  /** At most `maxBuilding` builds run, and no idea has two builds that exclude it. */
  ghost predicate Sound(bs: map<Id, Build>, maxBuilding: nat) {
    |Running(bs)| <= maxBuilding && OneLive(bs)
  }

  ghost predicate OneLive(bs: map<Id, Build>) {
    forall b, c, idea :: b in Live(bs, idea) && c in Live(bs, idea) ==> b == c
  }

  function IdsOf(added: seq<Started>): set<Id> {
    if added == [] then {} else IdsOf(added[..|added| - 1]) + {added[|added| - 1].id}
  }

  lemma {:induction false} StartedKeys(bs: map<Id, Build>, added: seq<Started>)
    ensures WithStarted(bs, added).Keys == bs.Keys + IdsOf(added)
  {
    if added != [] { StartedKeys(bs, added[..|added| - 1]); }
  }

  lemma {:induction false} IdAmong(added: seq<Started>, id: Id)
    ensures id in IdsOf(added) ==> exists i :: 0 <= i < |added| && added[i].id == id
  {
    if added != [] {
      var n := |added| - 1;
      IdAmong(added[..n], id);
      if id in IdsOf(added[..n]) {
        var i :| 0 <= i < n && added[..n][i].id == id;
        assert added[i].id == id;
      }
    }
  }

  /** The last new id is new to the builds before it. */
  lemma LastIsNew(bs: map<Id, Build>, added: seq<Started>)
    requires added != [] && Admissible(bs, added)
    ensures added[|added| - 1].id !in WithStarted(bs, added[..|added| - 1])
  {
    var n := |added| - 1;
    StartedKeys(bs, added[..n]);
    IdAmong(added[..n], added[n].id);
  }

  lemma {:induction false} StartedRunning(bs: map<Id, Build>, added: seq<Started>)
    requires Admissible(bs, added)
    ensures |Running(WithStarted(bs, added))| <= |Running(bs)| + |added|
  {
    if added != [] {
      var n := |added| - 1;
      var bs' := WithStarted(bs, added[..n]);
      StartedRunning(bs, added[..n]);
      assert Running(WithStarted(bs, added)) <= Running(bs') + {added[n].id};
      SubsetSize(Running(WithStarted(bs, added)), Running(bs') + {added[n].id});
    }
  }

  lemma {:induction false} SubsetSize<T>(a: set<T>, b: set<T>)
    requires a <= b
    ensures |a| <= |b|
  {
    if a != {} {
      var x :| x in a;
      SubsetSize(a - {x}, b - {x});
    }
  }

  /** After a prefix of the new builds, an idea not yet started still has only its old live builds. */
  lemma AddOther(bs: map<Id, Build>, s: Started, idea: Id)
    requires s.id !in bs && s.idea != idea
    ensures Live(bs[s.id := BuildFor(s)], idea) == Live(bs, idea)
  {}

  lemma {:induction false} StartedLive(bs: map<Id, Build>, added: seq<Started>, idea: Id)
    requires Admissible(bs, added) && (forall i :: 0 <= i < |added| ==> added[i].idea != idea)
    ensures Live(WithStarted(bs, added), idea) == Live(bs, idea)
  {
    if added != [] {
      var n := |added| - 1;
      StartedLive(bs, added[..n], idea);
      LastIsNew(bs, added);
      AddOther(WithStarted(bs, added[..n]), added[n], idea);
    }
  }

  lemma {:induction false} StartedOneLive(bs: map<Id, Build>, added: seq<Started>)
    requires Admissible(bs, added) && OneLive(bs)
    ensures OneLive(WithStarted(bs, added))
  {
    if added != [] {
      var n := |added| - 1;
      var bs', bs'' := WithStarted(bs, added[..n]), WithStarted(bs, added);
      StartedOneLive(bs, added[..n]);
      StartedLive(bs, added[..n], added[n].idea);
      forall b, c, idea | b in Live(bs'', idea) && c in Live(bs'', idea) ensures b == c {
        if b != added[n].id { assert b in Live(bs', idea); }
        if c != added[n].id { assert c in Live(bs', idea); }
      }
    }
  }

  /** A tick within capacity keeps both properties. */
  lemma TickKeepsSound(bs: map<Id, Build>, added: seq<Started>, maxBuilding: nat)
    requires Sound(bs, maxBuilding) && Admissible(bs, added) && |added| <= maxBuilding - |Running(bs)|
    ensures Sound(WithStarted(bs, added), maxBuilding)
  {
    StartedRunning(bs, added);
    StartedOneLive(bs, added);
  }

  /** So does any part of a tick, */
  lemma PartKeepsSound(bs: map<Id, Build>, added: seq<Started>, n: nat, maxBuilding: nat)
    requires Sound(bs, maxBuilding) && Admissible(bs, added) && |added| <= maxBuilding - |Running(bs)| && n <= |added|
    ensures Admissible(bs, added[..n]) && Sound(WithStarted(bs, added[..n]), maxBuilding)
  {
    TickKeepsSound(bs, added[..n], maxBuilding);
  }

  function Queued(s: Started): Build { Build(Str(s.idea), Str("queued")) }

  /** and the moment when the next build is queued already, and its outcome still open. */
  lemma QueuedKeepsSound(bs: map<Id, Build>, added: seq<Started>, n: nat, maxBuilding: nat)
    requires Sound(bs, maxBuilding) && Admissible(bs, added) && |added| <= maxBuilding - |Running(bs)| && n < |added|
    ensures Sound(WithStarted(bs, added[..n])[added[n].id := Queued(added[n])], maxBuilding)
  {
    PartKeepsSound(bs, added, n, maxBuilding);
    PartKeepsSound(bs, added, n + 1, maxBuilding);
    assert added[..n + 1][..n] == added[..n];
    LastIsNew(bs, added[..n + 1]);
    StartedLive(bs, added[..n], added[n].idea);
    QueuedAlone(WithStarted(bs, added[..n]), added[n], maxBuilding);
  }

  lemma QueuedAlone(bs: map<Id, Build>, s: Started, maxBuilding: nat)
    requires Sound(bs, maxBuilding) && s.id !in bs && Live(bs, s.idea) == {}
    ensures Sound(bs[s.id := Queued(s)], maxBuilding)
  {
    var bs' := bs[s.id := Queued(s)];
    assert Running(bs') == Running(bs);
    forall b, c, idea | b in Live(bs', idea) && c in Live(bs', idea) ensures b == c {
      assert (b != s.id ==> b in Live(bs, idea)) && (c != s.id ==> c in Live(bs, idea));
    }
  }

  /** Between ticks a running build may end, in any other status. */
  ghost predicate Ends(bs: map<Id, Build>, bs': map<Id, Build>) {
    exists b, status: Value :: b in bs && RunningBuild(bs[b]) && status != Str("running")
                               && bs' == bs[b := bs[b].(status := status)]
  }

  lemma EndKeepsSound(bs: map<Id, Build>, bs': map<Id, Build>, maxBuilding: nat)
    requires Sound(bs, maxBuilding) && Ends(bs, bs')
    ensures Sound(bs', maxBuilding)
  {
    assert Running(bs') <= Running(bs);
    SubsetSize(Running(bs'), Running(bs));
    forall b, c, idea | b in Live(bs', idea) && c in Live(bs', idea) ensures b == c {
      assert b in Live(bs, idea) && c in Live(bs, idea);
    }
  }

  /** Nothing starts running, and nothing comes to exclude an idea. */
  ghost predicate Calm(bs: map<Id, Build>, bs': map<Id, Build>) {
    forall id :: id in bs' ==>
      && (RunningBuild(bs'[id]) ==> id in bs && RunningBuild(bs[id]))
      && (Excludes(bs'[id]) ==> id in bs && Excludes(bs[id]) && bs'[id].idea == bs[id].idea)
  }

  lemma CalmKeepsSound(bs: map<Id, Build>, bs': map<Id, Build>, maxBuilding: nat)
    requires Sound(bs, maxBuilding) && Calm(bs, bs')
    ensures Sound(bs', maxBuilding)
  {
    SubsetSize(Running(bs'), Running(bs));
    forall b, c, idea | b in Live(bs', idea) && c in Live(bs', idea) ensures b == c {
      assert b in Live(bs, idea) && c in Live(bs, idea);
    }
  }

  /** Emitted on this graph, the event lets no build start running and none come to exclude an idea. */
  ghost predicate StartsNothing(g: Graph, e: Event) {
    IsBuildEvent(e) && Text(e.payload, "id") != "" ==>
      var id, b, bs := Text(e.payload, "id"), BuildAfter(g, e), BuildsOf(g);
      && (RunningBuild(b) ==> id in bs && RunningBuild(bs[id]))
      && (Excludes(b) ==> id in bs && Excludes(bs[id]) && b.idea == bs[id].idea)
  }

  /** Exactly the events that keep the builds calm. */
  lemma StartsNothingIff(g: Graph, e: Event)
    ensures StartsNothing(g, e) <==> Calm(BuildsOf(g), BuildsOf(Project(g, e).graph))
  {
    if IsBuildEvent(e) {
      AnyBuildEventProjects(g, e);
      if Text(e.payload, "id") != "" {
        assert Text(e.payload, "id") in BuildsOf(Project(g, e).graph);
      }
    } else {
      OtherEventShrinks(g, e);
    }
  }

  /** A completion of a running build, with or without idea and status in its payload, ends that build. */
  lemma CompletionEnds(g: Graph, e: Event)
    requires e.typ.BuildCompleted? && Text(e.payload, "id") != "" && Text(e.payload, "id") in BuildsOf(g)
    requires RunningBuild(BuildsOf(g)[Text(e.payload, "id")]) && BuildStatus(e) != "running"
    requires Get(e.payload, "idea_id") in {Undefined, BuildsOf(g)[Text(e.payload, "id")].idea}
    ensures Ends(BuildsOf(g), BuildsOf(Project(g, e).graph)) && StartsNothing(g, e)
  {
    var id := Text(e.payload, "id");
    AnyBuildEventProjects(g, e);
    assert BuildAfter(g, e) == BuildsOf(g)[id].(status := Str(BuildStatus(e)));
  }

  ghost predicate Ticks(bs: map<Id, Build>, bs': map<Id, Build>, maxBuilding: nat) {
    exists added :: Admissible(bs, added) && |added| <= Spare(bs, maxBuilding) && bs' == WithStarted(bs, added)
  }

  function Spare(bs: map<Id, Build>, maxBuilding: nat): nat {
    if |Running(bs)| <= maxBuilding then maxBuilding - |Running(bs)| else 0
  }
}
