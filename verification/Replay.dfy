/**
 * Replaying a projected log on top of its own projection: nothing stored changes, only
 * links that were skipped for want of their other end may appear, and a second replay is
 * the identity.
 */
module Replay {
  import opened Values
  import opened GraphModel
  import opened Projector

  // ------------------------------------------------------------------ logs as command sequences

  function AllCommands(log: seq<Event>): seq<Command> {
    if log == [] then [] else AllCommands(log[..|log| - 1]) + Commands(log[|log| - 1])
  }

  lemma {:induction false} ExecConcat(g: Graph, a: seq<Command>, b: seq<Command>)
    ensures Exec(g, a + b) == if Exec(g, a).ok then Exec(Exec(g, a).graph, b) else Exec(g, a)
  {
    if b == [] {
      assert a + b == a;
    } else {
      var n := |b| - 1;
      ExecConcat(g, a, b[..n]);
      assert (a + b)[..|a + b| - 1] == a + b[..n];
    }
  }

  lemma {:induction false} ProjectAllIsExec(g: Graph, log: seq<Event>)
    ensures ProjectAll(g, log) == Exec(g, AllCommands(log))
  {
    if log != [] {
      var n := |log| - 1;
      ProjectAllIsExec(g, log[..n]);
      ExecConcat(g, AllCommands(log[..n]), Commands(log[n]));
    }
  }

  // ------------------------------------------------------------------ shape of the commands

  function Ends(c: Command): set<Id> { if c.Put? then {} else {c.src, c.dst} }

  function PutIds(cs: seq<Command>): set<Id> {
    if cs == [] then {}
    else PutIds(cs[..|cs| - 1]) + if cs[|cs| - 1].Put? then {cs[|cs| - 1].entity.id} else {}
  }

  /** A guarded link looks at one end; its other end was put by an earlier command. */
  ghost predicate Anchored(cs: seq<Command>) {
    forall i :: 0 <= i < |cs| && cs[i].ConnectIf? ==>
      (cs[i].guard in Ends(cs[i]) && Ends(cs[i]) - {cs[i].guard} <= PutIds(cs[..i]))
  }

  /** Ids and kinds without the key separator. */
  ghost predicate CleanCommands(cs: seq<Command>) {
    forall i :: 0 <= i < |cs| && !cs[i].Put? ==> Clean(cs[i].src) && Clean(cs[i].kind)
  }

  lemma {:induction false} PutIdsConcat(a: seq<Command>, b: seq<Command>)
    ensures PutIds(a + b) == PutIds(a) + PutIds(b)
  {
    if b == [] {
      assert a + b == a;
    } else {
      PutIdsConcat(a, b[..|b| - 1]);
      assert (a + b)[..|a + b| - 1] == a + b[..|b| - 1];
    }
  }

  lemma {:induction false} PutIdsOf(cs: seq<Command>, i: nat)
    requires i < |cs| && cs[i].Put?
    ensures cs[i].entity.id in PutIds(cs)
  {
    if i < |cs| - 1 { PutIdsOf(cs[..|cs| - 1], i); }
  }

  lemma AnchoredConcat(a: seq<Command>, b: seq<Command>)
    requires Anchored(a) && Anchored(b)
    ensures Anchored(a + b)
  {
    var c := a + b;
    forall i | 0 <= i < |c| && c[i].ConnectIf?
      ensures c[i].guard in Ends(c[i]) && Ends(c[i]) - {c[i].guard} <= PutIds(c[..i])
    {
      if i < |a| {
        assert c[..i] == a[..i];
      } else {
        assert c[..i] == a + b[..i - |a|];
        PutIdsConcat(a, b[..i - |a|]);
      }
    }
  }

  /** Commands that start by putting `id` may guard links whose other end is `id`. */
  ghost predicate AroundFirst(cs: seq<Command>) {
    forall i :: 0 <= i < |cs| && cs[i].ConnectIf? ==>
      (i > 0 && cs[0].Put? && cs[i].guard in Ends(cs[i]) && Ends(cs[i]) - {cs[i].guard} <= {cs[0].entity.id})
  }

  lemma AroundFirstAnchored(cs: seq<Command>)
    requires AroundFirst(cs)
    ensures Anchored(cs)
  {
    forall i | 0 <= i < |cs| && cs[i].ConnectIf?
      ensures cs[i].guard in Ends(cs[i]) && Ends(cs[i]) - {cs[i].guard} <= PutIds(cs[..i])
    {
      PutIdsOf(cs[..i], 0);
    }
  }

  ghost predicate Unguarded(cs: seq<Command>) {
    forall i :: 0 <= i < |cs| ==> !cs[i].ConnectIf?
  }

  /** `b` may follow `a` when `a` starts by putting the id that `b`'s guarded links hang on. */
  lemma AroundFirstConcat(a: seq<Command>, b: seq<Command>)
    requires a != [] && a[0].Put? && AroundFirst(a)
    requires forall i :: 0 <= i < |b| && b[i].ConnectIf? ==>
      (b[i].guard in Ends(b[i]) && Ends(b[i]) - {b[i].guard} <= {a[0].entity.id})
    ensures (a + b)[0] == a[0] && AroundFirst(a + b)
  {}

  lemma VersionAround(e: Event)
    requires e.typ.StandardVersionRegistered?
    ensures AroundFirst(Commands(e))
  {
    var cs := Commands(e);
    assert cs[0].Put? && cs[0].entity.id == Text(e.payload, "id");
    assert forall i :: 0 < i < |cs| ==> cs[i].ConnectIf?;
  }

  lemma RunAround(e: Event, status: string, stamp: string)
    ensures AroundFirst(ProcessRunCommands(e, status, stamp))
  {
    var p := e.payload;
    var id := Text(p, "id");
    var head := [Node(p, "ProcessRun", OrElse(Get(p, "name"), Get(p, "id")), Stamped(p["status" := Str(status)], stamp, e.at))];
    var links := LinkFrom(Text(p, "process_id"), "EXECUTED", id, e.at);
    var ins := Inputs(id, IdList(p, "input_ids"), e.at);
    AroundFirstConcat(head, links);
    AroundFirstConcat(head + links, ins);
    AroundFirstConcat(head + links + ins, Outputs(id, IdList(p, "output_ids"), e.at));
  }

  predicate ManyLinks(t: EventType) { t.ResearchRecorded? || t.ObservationRecorded? || t.ProductGraduated? }

  lemma ManyUnguarded(e: Event)
    requires ManyLinks(e.typ)
    ensures Unguarded(Commands(e))
  {}

  predicate IdeaOrBuild(t: EventType) {
    t.IdeaGeneratorRegistered? || t.IdeaCreated? || t.IdeaSeeded? || t.CapabilityDefined? || t.BuildStarted?
    || t.BuildCompleted? || t.SiteRegistered? || t.DeploymentRecorded?
  }

  lemma IdeaOrBuildUnguarded(e: Event)
    requires IdeaOrBuild(e.typ)
    ensures Unguarded(Commands(e))
  {
    assert |Commands(e)| <= 2;
  }

  lemma FewUnguarded(e: Event)
    requires !e.typ.StandardVersionRegistered? && !e.typ.ProcessRunStarted? && !e.typ.ProcessRunCompleted?
    requires !ManyLinks(e.typ) && !IdeaOrBuild(e.typ)
    ensures Unguarded(Commands(e))
  {
    assert |Commands(e)| <= 2;
  }

  lemma CommandsAnchored(e: Event)
    ensures Anchored(Commands(e))
  {
    match e.typ
    case StandardVersionRegistered =>
      VersionAround(e);
      AroundFirstAnchored(Commands(e));
    case ProcessRunStarted =>
      RunAround(e, "running", "running_at");
      AroundFirstAnchored(Commands(e));
    case ProcessRunCompleted =>
      RunAround(e, "completed", "completed_at");
      AroundFirstAnchored(Commands(e));
    case _ =>
      if ManyLinks(e.typ) { ManyUnguarded(e); } else if IdeaOrBuild(e.typ) { IdeaOrBuildUnguarded(e); } else { FewUnguarded(e); }
  }

  lemma {:induction false} AllCommandsAnchored(log: seq<Event>)
    ensures Anchored(AllCommands(log))
  {
    if log != [] {
      AllCommandsAnchored(log[..|log| - 1]);
      CommandsAnchored(log[|log| - 1]);
      AnchoredConcat(AllCommands(log[..|log| - 1]), Commands(log[|log| - 1]));
    }
  }

  // ------------------------------------------------------------------ what every run keeps

  lemma StepWellFormed(g: Graph, c: Command)
    requires WellFormed(g)
    ensures WellFormed(Step(g, c).graph)
  {
    match c
    case Put(e) => if Storable(e) { UpsertWellFormed(g, e); }
    case Connect(src, kind, dst, props) => if Linkable(g, src, dst) { LinkWellFormed(g, src, kind, dst, props); }
    case ConnectIf(guard, src, kind, dst, props) =>
      if Linkable(g, src, dst) { LinkWellFormed(g, src, kind, dst, props); }
  }

  lemma StepKeepsClean(g: Graph, c: Command)
    requires WellFormed(g) && IndexExact(g) && CleanEdges(g)
    requires c.Put? || (Clean(c.src) && Clean(c.kind))
    ensures IndexExact(Step(g, c).graph) && CleanEdges(Step(g, c).graph)
  {
    match c
    case Put(e) => UpsertKeepsIndex(g, e);
    case Connect(src, kind, dst, props) => if Linkable(g, src, dst) { CleanLinkKeepsIndex(g, src, kind, dst, props); }
    case ConnectIf(guard, src, kind, dst, props) =>
      if Linkable(g, src, dst) { CleanLinkKeepsIndex(g, src, kind, dst, props); }
  }

  /** Entities and edges are never lost, whatever the commands and wherever they stop. */
  ghost predicate Grows(g: Graph, h: Graph) {
    && g.entities.Keys <= h.entities.Keys
    && g.edges.Keys <= h.edges.Keys
  }

  lemma StepGrows(g: Graph, c: Command)
    ensures Grows(g, Step(g, c).graph)
  {}

  lemma {:induction false} ExecWellFormed(g: Graph, cs: seq<Command>)
    requires WellFormed(g)
    ensures WellFormed(Exec(g, cs).graph) && Grows(g, Exec(g, cs).graph)
  {
    if cs != [] {
      var r := Exec(g, cs[..|cs| - 1]);
      ExecWellFormed(g, cs[..|cs| - 1]);
      StepWellFormed(r.graph, cs[|cs| - 1]);
      StepGrows(r.graph, cs[|cs| - 1]);
    }
  }

  lemma {:induction false} ExecIndexExact(g: Graph, cs: seq<Command>)
    requires WellFormed(g) && IndexExact(g) && CleanEdges(g) && CleanCommands(cs)
    ensures IndexExact(Exec(g, cs).graph) && CleanEdges(Exec(g, cs).graph)
  {
    if cs != [] {
      var r := Exec(g, cs[..|cs| - 1]);
      ExecIndexExact(g, cs[..|cs| - 1]);
      ExecWellFormed(g, cs[..|cs| - 1]);
      StepKeepsClean(r.graph, cs[|cs| - 1]);
    }
  }

  /** Every log, projected from empty: stored endpoints, and exact indexes on separator-free ids. */
  lemma ProjectionWellFormed(log: seq<Event>)
    ensures WellFormed(ProjectAll(EMPTY, log).graph)
    ensures CleanCommands(AllCommands(log)) ==> IndexExact(ProjectAll(EMPTY, log).graph)
  {
    EmptyWellFormed();
    ProjectAllIsExec(EMPTY, log);
    ExecWellFormed(EMPTY, AllCommands(log));
    if CleanCommands(AllCommands(log)) { ExecIndexExact(EMPTY, AllCommands(log)); }
  }

  // ------------------------------------------------------------------ entities

  function Combine(a: Option<Entity>, b: Option<Entity>): Option<Entity> {
    match (a, b)
    case (None, _) => b
    case (_, None) => a
    case (Some(p), Some(e)) => Some(Entity(e.id, e.typ, p.fields + e.fields, p.data + e.data))
  }

  function Lookup(g: Graph, id: Id): Option<Entity> {
    if id in g.entities then Some(g.entities[id]) else None
  }

  /** Everything the commands write to `id`, merged in order. */
  function Written(id: Id, cs: seq<Command>): Option<Entity> {
    if cs == [] then None
    else
      var c := cs[|cs| - 1];
      var w := Written(id, cs[..|cs| - 1]);
      if c.Put? && c.entity.id == id then Combine(w, Some(c.entity)) else w
  }

  lemma CombineAssociative(a: Option<Entity>, b: Option<Entity>, c: Option<Entity>)
    ensures Combine(Combine(a, b), c) == Combine(a, Combine(b, c))
  {
    if a.Some? && b.Some? && c.Some? {
      var x, y, z := a.value, b.value, c.value;
      assert (x.fields + y.fields) + z.fields == x.fields + (y.fields + z.fields);
      assert (x.data + y.data) + z.data == x.data + (y.data + z.data);
    }
  }

  lemma CombineIdempotent(a: Option<Entity>)
    ensures Combine(a, a) == a
  {
    if a.Some? {
      assert a.value.fields + a.value.fields == a.value.fields;
      assert a.value.data + a.value.data == a.value.data;
    }
  }

  /** A run leaves each entity as it was, merged with everything written to it. */
  lemma {:induction false} ExecEntity(g: Graph, cs: seq<Command>, id: Id)
    requires Exec(g, cs).ok
    ensures Lookup(Exec(g, cs).graph, id) == Combine(Lookup(g, id), Written(id, cs))
  {
    if cs != [] {
      var n := |cs| - 1;
      ExecEntity(g, cs[..n], id);
      var h := Exec(g, cs[..n]).graph;
      if cs[n].Put? && cs[n].entity.id == id {
        assert Lookup(Upsert(h, cs[n].entity), id) == Combine(Lookup(h, id), Some(cs[n].entity));
        CombineAssociative(Lookup(g, id), Written(id, cs[..n]), Some(cs[n].entity));
      }
    }
  }

  lemma {:induction false} ExecKeys(g: Graph, cs: seq<Command>)
    requires Exec(g, cs).ok
    ensures Exec(g, cs).graph.entities.Keys == g.entities.Keys + PutIds(cs)
    ensures PutIds(cs) <= g.entities.Keys ==> Exec(g, cs).graph.order == g.order
  {
    if cs != [] { ExecKeys(g, cs[..|cs| - 1]); }
  }

  // ------------------------------------------------------------------ edges, once all entities exist

  /** Over a fixed key set, a command draws its link if it is unguarded or its guard is stored. */
  predicate Active(c: Command, ids: set<Id>) {
    c.Connect? || (c.ConnectIf? && c.guard in ids)
  }

  function KeyOf(c: Command): string
    requires !c.Put?
  {
    Key(c.src, c.kind, c.dst)
  }

  /** The last active link drawn under `key`. */
  function Drawn(key: string, cs: seq<Command>, ids: set<Id>): Option<Edge> {
    if cs == [] then None
    else
      var c := cs[|cs| - 1];
      if Active(c, ids) && KeyOf(c) == key then Some(Edge(c.src, c.kind, c.dst, c.props))
      else Drawn(key, cs[..|cs| - 1], ids)
  }

  function EdgeAt(g: Graph, key: string): Option<Edge> {
    if key in g.edges then Some(g.edges[key]) else None
  }

  lemma {:induction false} ExecEdge(g: Graph, cs: seq<Command>, key: string)
    requires Exec(g, cs).ok && PutIds(cs) <= g.entities.Keys
    ensures EdgeAt(Exec(g, cs).graph, key)
         == var d := Drawn(key, cs, g.entities.Keys); if d.Some? then d else EdgeAt(g, key)
  {
    if cs != [] {
      ExecEdge(g, cs[..|cs| - 1], key);
      ExecKeys(g, cs[..|cs| - 1]);
    }
  }

  /** What a sequence needs so that it runs through on a graph holding `ids`. */
  ghost predicate RunsOn(cs: seq<Command>, ids: set<Id>) {
    forall i :: 0 <= i < |cs| ==>
      (if cs[i].Put? then Storable(cs[i].entity) else Active(cs[i], ids) ==> Ends(cs[i]) <= ids)
  }

  lemma {:induction false} ExecRuns(g: Graph, cs: seq<Command>)
    requires RunsOn(cs, g.entities.Keys) && PutIds(cs) <= g.entities.Keys
    ensures Exec(g, cs).ok
  {
    if cs != [] {
      assert RunsOn(cs[..|cs| - 1], g.entities.Keys);
      ExecRuns(g, cs[..|cs| - 1]);
      ExecKeys(g, cs[..|cs| - 1]);
    }
  }

  /** A sequence that ran through from empty runs on the ids it created. */
  lemma FirstRunRuns(cs: seq<Command>)
    requires Exec(EMPTY, cs).ok && Anchored(cs)
    ensures RunsOn(cs, PutIds(cs))
  {
    forall i | 0 <= i < |cs|
      ensures if cs[i].Put? then Storable(cs[i].entity) else Active(cs[i], PutIds(cs)) ==> Ends(cs[i]) <= PutIds(cs)
    {
      RunsAt(cs, i);
    }
  }

  /** Every link of a successful first run has both ends among the ids it put, guarded or not. */
  lemma RunsAt(cs: seq<Command>, i: nat)
    requires i < |cs| && Exec(EMPTY, cs).ok && Anchored(cs)
    ensures if cs[i].Put? then Storable(cs[i].entity) else Active(cs[i], PutIds(cs)) ==> Ends(cs[i]) <= PutIds(cs)
  {
    PrefixPutIds(cs, i);
    ExecPrefixOk(cs, i + 1);
    ExecPrefixOk(cs, i);
    assert cs[..i + 1][..i] == cs[..i];
    ExecKeys(EMPTY, cs[..i]);
    assert Step(Exec(EMPTY, cs[..i]).graph, cs[i]).ok;
  }

  lemma PrefixPutIds(cs: seq<Command>, i: nat)
    requires i <= |cs|
    ensures PutIds(cs[..i]) <= PutIds(cs)
  {
    PutIdsConcat(cs[..i], cs[i..]);
    assert cs[..i] + cs[i..] == cs;
  }

  /**
   * In a first run from empty every stored edge is the last active link under its key: once an
   * edge exists both its ends do, so no later guard on that key can fail.
   */
  lemma {:induction false} FirstRunEdge(cs: seq<Command>, i: nat, key: string)
    requires i <= |cs| && Exec(EMPTY, cs).ok && Anchored(cs) && CleanCommands(cs)
    ensures Exec(EMPTY, cs[..i]).ok
    ensures key in Exec(EMPTY, cs[..i]).graph.edges ==>
              EdgeAt(Exec(EMPTY, cs[..i]).graph, key) == Drawn(key, cs[..i], PutIds(cs))
  {
    ExecPrefixOk(cs, i);
    if i > 0 {
      var c := cs[i - 1];
      assert cs[..i][..i - 1] == cs[..i - 1];
      FirstRunEdge(cs, i - 1, key);
      var h := Exec(EMPTY, cs[..i - 1]).graph;
      ExecKeys(EMPTY, cs[..i - 1]);
      PrefixPutIds(cs, i - 1);
      if !c.Put? && KeyOf(c) == key && key in h.edges {
        assert CleanCommands(cs[..i - 1]);
        EdgeUnderKey(cs[..i - 1], c, key);
      }
    }
  }

  /** On separator-free ids a command's key names the stored edge with the same ends. */
  lemma EdgeUnderKey(cs: seq<Command>, c: Command, key: string)
    requires CleanCommands(cs) && !c.Put? && Clean(c.src) && Clean(c.kind)
    requires key == KeyOf(c) && key in Exec(EMPTY, cs).graph.edges
    ensures Ends(c) <= Exec(EMPTY, cs).graph.entities.Keys
  {
    EmptyWellFormed();
    ExecWellFormed(EMPTY, cs);
    ExecIndexExact(EMPTY, cs);
    var e := Exec(EMPTY, cs).graph.edges[key];
    KeyInjective(c.src, c.kind, c.dst, e.src, e.kind, e.dst);
  }

  lemma ExecPrefixOk(cs: seq<Command>, i: nat)
    requires i <= |cs| && Exec(EMPTY, cs).ok
    ensures Exec(EMPTY, cs[..i]).ok
  {
    if !Exec(EMPTY, cs[..i]).ok { ExecStops(EMPTY, cs, i); }
  }

  // ------------------------------------------------------------------ indexes

  ghost predicate Indexed(g: Graph, c: Command)
    requires !c.Put?
  {
    KeyOf(c) in Bucket(g.outgoing, c.src) && KeyOf(c) in Bucket(g.incoming, c.dst)
  }

  /** Every active link of the sequence is in both indexes. */
  ghost predicate AllIndexed(g: Graph, cs: seq<Command>, ids: set<Id>) {
    forall i :: 0 <= i < |cs| && Active(cs[i], ids) ==> Indexed(g, cs[i])
  }

  lemma StepIndexes(g: Graph, c: Command, d: Command)
    requires !d.Put? && (Indexed(g, d) || (c == d && Active(c, g.entities.Keys)))
    requires Step(g, c).ok
    ensures Indexed(Step(g, c).graph, d)
  {
    if Active(c, g.entities.Keys) {
      AddIndexBucket(g.outgoing, c.src, KeyOf(c), d.src);
      AddIndexBucket(g.incoming, c.dst, KeyOf(c), d.dst);
    }
  }

  lemma {:induction false} ExecIndexes(g: Graph, cs: seq<Command>)
    requires Exec(g, cs).ok && PutIds(cs) <= g.entities.Keys
    ensures AllIndexed(Exec(g, cs).graph, cs, g.entities.Keys)
  {
    if cs != [] {
      var n := |cs| - 1;
      ExecIndexes(g, cs[..n]);
      ExecKeys(g, cs[..n]);
      var h := Exec(g, cs[..n]).graph;
      forall i | 0 <= i < |cs| && Active(cs[i], g.entities.Keys) ensures Indexed(Exec(g, cs).graph, cs[i]) {
        assert i < n ==> cs[..n][i] == cs[i];
        StepIndexes(h, cs[n], cs[i]);
      }
    }
  }

  lemma {:induction false} ExecKeepsIndexes(g: Graph, cs: seq<Command>)
    requires Exec(g, cs).ok && PutIds(cs) <= g.entities.Keys && AllIndexed(g, cs, g.entities.Keys)
    ensures Exec(g, cs).graph.outgoing == g.outgoing && Exec(g, cs).graph.incoming == g.incoming
  {
    if cs != [] {
      var n := |cs| - 1;
      assert AllIndexed(g, cs[..n], g.entities.Keys);
      ExecKeepsIndexes(g, cs[..n]);
      ExecKeys(g, cs[..n]);
      if Active(cs[n], g.entities.Keys) {
        assert Indexed(g, cs[n]);
        assert AddIndex(g.outgoing, cs[n].src, KeyOf(cs[n])) == g.outgoing;
        assert AddIndex(g.incoming, cs[n].dst, KeyOf(cs[n])) == g.incoming;
      }
    }
  }

  // ------------------------------------------------------------------ the replay theorem

  ghost predicate SameEntities(g: Graph, h: Graph) {
    g.entities == h.entities && g.order == h.order
  }

  lemma ReplayEntities(g: Graph, cs: seq<Command>)
    requires Exec(g, cs).ok && PutIds(cs) <= g.entities.Keys
    requires forall id :: Combine(Lookup(g, id), Written(id, cs)) == Lookup(g, id)
    ensures SameEntities(g, Exec(g, cs).graph)
  {
    var h := Exec(g, cs).graph;
    ExecKeys(g, cs);
    forall id | id in h.entities ensures h.entities[id] == g.entities[id] {
      ExecEntity(g, cs, id);
      assert Lookup(h, id) == Lookup(g, id);
    }
  }

  lemma Absorbed(cs: seq<Command>, id: Id)
    requires Exec(EMPTY, cs).ok
    ensures var g := Exec(EMPTY, cs).graph;
            Combine(Lookup(g, id), Written(id, cs)) == Lookup(g, id)
  {
    ExecEntity(EMPTY, cs, id);
    CombineIdempotent(Written(id, cs));
  }

  lemma {:induction false} DrawnFrom(key: string, cs: seq<Command>, ids: set<Id>)
    requires Drawn(key, cs, ids).Some?
    ensures exists i :: 0 <= i < |cs| && Active(cs[i], ids) && KeyOf(cs[i]) == key
  {
    var c := cs[|cs| - 1];
    if !(Active(c, ids) && KeyOf(c) == key) {
      DrawnFrom(key, cs[..|cs| - 1], ids);
      var i :| 0 <= i < |cs| - 1 && Active(cs[..|cs| - 1][i], ids) && KeyOf(cs[..|cs| - 1][i]) == key;
      assert cs[i] == cs[..|cs| - 1][i];
    }
  }

  /** An unguarded link of a successful run is in the graph. */
  lemma {:induction false} ConnectStored(g: Graph, cs: seq<Command>, i: nat)
    requires Exec(g, cs).ok && i < |cs| && cs[i].Connect?
    ensures KeyOf(cs[i]) in Exec(g, cs).graph.edges
  {
    if i < |cs| - 1 {
      assert cs[..|cs| - 1][i] == cs[i];
      ConnectStored(g, cs[..|cs| - 1], i);
    }
  }

  ghost predicate GuardedLink(cs: seq<Command>, key: string) {
    exists i :: 0 <= i < |cs| && cs[i].ConnectIf? && KeyOf(cs[i]) == key
  }

  lemma ReplayEdge(cs: seq<Command>, key: string)
    requires Exec(EMPTY, cs).ok && Anchored(cs) && CleanCommands(cs)
    requires Exec(Exec(EMPTY, cs).graph, cs).ok
    ensures var g := Exec(EMPTY, cs).graph;
            var h := Exec(g, cs).graph;
            && (key in g.edges ==> key in h.edges && h.edges[key] == g.edges[key])
            && (key in h.edges && key !in g.edges ==> GuardedLink(cs, key))
            && (var d := Drawn(key, cs, PutIds(cs)); d.Some? ==> EdgeAt(h, key) == d)
  {
    var g := Exec(EMPTY, cs).graph;
    var h := Exec(g, cs).graph;
    ExecKeys(EMPTY, cs);
    assert g.entities.Keys == PutIds(cs);
    ExecEdge(g, cs, key);
    FirstRunEdge(cs, |cs|, key);
    assert cs[..|cs|] == cs;
    if key in h.edges && key !in g.edges {
      DrawnFrom(key, cs, PutIds(cs));
      var i :| 0 <= i < |cs| && Active(cs[i], PutIds(cs)) && KeyOf(cs[i]) == key;
      if cs[i].Connect? { ConnectStored(EMPTY, cs, i); }
    }
  }

  /** Replaying commands that ran through from empty. */
  lemma ReplayCommands(cs: seq<Command>)
    requires Exec(EMPTY, cs).ok && Anchored(cs) && CleanCommands(cs)
    ensures var g := Exec(EMPTY, cs).graph;
            && Exec(g, cs).ok
            && SameEntities(g, Exec(g, cs).graph)
            && (forall key :: key in g.edges ==>
                  key in Exec(g, cs).graph.edges && Exec(g, cs).graph.edges[key] == g.edges[key])
            && (forall key :: key in Exec(g, cs).graph.edges && key !in g.edges ==> GuardedLink(cs, key))
            && Exec(Exec(g, cs).graph, cs) == Exec(g, cs)
  {
    var g := Exec(EMPTY, cs).graph;
    ExecKeys(EMPTY, cs);
    FirstRunRuns(cs);
    ExecRuns(g, cs);
    forall id ensures Combine(Lookup(g, id), Written(id, cs)) == Lookup(g, id) { Absorbed(cs, id); }
    ReplayEntities(g, cs);
    forall key
      ensures key in g.edges ==> key in Exec(g, cs).graph.edges && Exec(g, cs).graph.edges[key] == g.edges[key]
      ensures key in Exec(g, cs).graph.edges && key !in g.edges ==> GuardedLink(cs, key)
    {
      ReplayEdge(cs, key);
    }
    SecondReplay(cs);
  }

  /** The second replay is the identity on the first one's result. */
  lemma SecondReplay(cs: seq<Command>)
    requires Exec(EMPTY, cs).ok && Anchored(cs) && CleanCommands(cs)
    requires Exec(Exec(EMPTY, cs).graph, cs).ok
    requires SameEntities(Exec(EMPTY, cs).graph, Exec(Exec(EMPTY, cs).graph, cs).graph)
    ensures var h := Exec(Exec(EMPTY, cs).graph, cs).graph;
            Exec(h, cs) == Outcome(h, true)
  {
    var g := Exec(EMPTY, cs).graph;
    var h := Exec(g, cs).graph;
    ExecKeys(EMPTY, cs);
    FirstRunRuns(cs);
    ExecRuns(h, cs);
    var k := Exec(h, cs).graph;
    forall id ensures Combine(Lookup(h, id), Written(id, cs)) == Lookup(h, id) {
      Absorbed(cs, id);
      assert Lookup(h, id) == Lookup(g, id);
    }
    ReplayEntities(h, cs);
    assert h.entities.Keys == PutIds(cs);
    forall key ensures EdgeAt(k, key) == EdgeAt(h, key) {
      ExecEdge(h, cs, key);
      ReplayEdge(cs, key);
    }
    SameEdges(h, k);
    ExecIndexes(g, cs);
    ExecKeepsIndexes(h, cs);
  }

  lemma SameEdges(h: Graph, k: Graph)
    requires forall key :: EdgeAt(k, key) == EdgeAt(h, key)
    ensures h.edges == k.edges
  {
    assert forall key :: key in h.edges <==> EdgeAt(h, key).Some?;
    assert forall key :: key in k.edges <==> EdgeAt(k, key).Some?;
  }

  /**
   * The replay theorem for logs: on top of its own projection a log changes no entity and no
   * edge, adds only links whose guard had failed, and from then on changes nothing at all.
   */
  lemma ReplayLog(log: seq<Event>)
    requires ProjectAll(EMPTY, log).ok && CleanCommands(AllCommands(log))
    ensures var g := ProjectAll(EMPTY, log).graph;
            var again := ProjectAll(g, log);
            && again.ok
            && SameEntities(g, again.graph)
            && (forall key :: key in g.edges ==> key in again.graph.edges && again.graph.edges[key] == g.edges[key])
            && (forall key :: key in again.graph.edges && key !in g.edges ==> GuardedLink(AllCommands(log), key))
            && ProjectAll(again.graph, log) == again
  {
    var g := ProjectAll(EMPTY, log).graph;
    ProjectAllIsExec(EMPTY, log);
    ProjectAllIsExec(g, log);
    ProjectAllIsExec(ProjectAll(g, log).graph, log);
    AllCommandsAnchored(log);
    ReplayCommands(AllCommands(log));
  }
}
