/**
 * After every site has been judged and its verdicts recorded, the drift read back from the graph is
 * exactly the desired pairs with a failed required check.
 */
module ConformanceDrift {
  import opened Values
  import opened GraphModel
  import opened GraphStore
  import opened Projector
  import opened Conformance
  import Replay
  import Bus = EventBus

  // ------------------------------------------------------------------ what recording one verdict does

  function Node(v: Verdict, at: string): Entity {
    Entity(RecordId(v.site, v.version), OBSERVATION, map["name" := Str(COMPLIANCE)], Payload(v, at)["ingested_at" := Str(at)])
  }

  function Props(at: string): map<string, Value> { map["at" := Str(at)] }

  function Recorded(g: Graph, v: Verdict, at: string): Graph {
    var id := RecordId(v.site, v.version);
    Link(Link(Upsert(g, Node(v, at)), SENSOR, "OBSERVED", id, Props(at)), v.site, "OBSERVED_BY", id, Props(at))
  }

  lemma RecordCommands(v: Verdict, at: string)
    ensures Commands(RecordEvent(v, at))
         == [Put(Node(v, at)), Connect(SENSOR, "OBSERVED", RecordId(v.site, v.version), Props(at))]
            + LinkFrom(v.site, "OBSERVED_BY", RecordId(v.site, v.version), at)
  {
    var p := Payload(v, at);
    assert Text(p, "id") == RecordId(v.site, v.version) && Text(p, "sensor_id") == SENSOR;
    assert Text(p, "subject_id") == v.site && Text(p, "experiment_id") == "";
    assert Get(p, "metric") == Str(COMPLIANCE);
  }

  lemma RecordIdNotEmpty(site: Id, version: Id)
    ensures RecordId(site, version) != ""
  {
    assert |"obs_conf_" + site + "_" + version| >= 9;
  }

  lemma RecordProjects(g: Graph, v: Verdict, at: string)
    requires SENSOR in g.entities && v.site in g.entities && v.site != ""
    ensures Project(g, RecordEvent(v, at)) == Outcome(Recorded(g, v, at), true)
  {
    var id := RecordId(v.site, v.version);
    var put, sensor, subject := Put(Node(v, at)), Connect(SENSOR, "OBSERVED", id, Props(at)), Connect(v.site, "OBSERVED_BY", id, Props(at));
    RecordCommands(v, at);
    RecordIdNotEmpty(v.site, v.version);
    assert Commands(RecordEvent(v, at)) == [put, sensor, subject];
    assert [put, sensor, subject][..2] == [put, sensor] && [put, sensor][..1] == [put] && [put][..0] == [];
    var g1 := Upsert(g, Node(v, at));
    assert Exec(g, [put]) == Outcome(g1, true);
    assert Exec(g, [put, sensor]) == Outcome(Link(g1, SENSOR, "OBSERVED", id, Props(at)), true);
  }

  // ------------------------------------------------------------------ what stays

  const DESIRES: Option<set<string>> := Some({CONFORMS_TO})

  lemma {:induction false} UpsertHops(g: Graph, e: Entity, keys: seq<string>)
    requires Resolves(g, keys) && Resolves(Upsert(g, e), keys)
    requires forall k :: k in g.edges && g.edges[k].kind == CONFORMS_TO ==> g.edges[k].dst != e.id
    ensures OutHops(Upsert(g, e), keys, DESIRES) == OutHops(g, keys, DESIRES)
  {
    if keys != [] { UpsertHops(g, e, keys[..|keys| - 1]); }
  }

  lemma {:induction false} LinkHops(g: Graph, src: Id, kind: string, dst: Id, props: map<string, Value>, keys: seq<string>)
    requires Resolves(g, keys) && Resolves(Link(g, src, kind, dst, props), keys) && kind != CONFORMS_TO
    requires var key := Key(src, kind, dst); key in g.edges ==> g.edges[key].kind == kind
    ensures OutHops(Link(g, src, kind, dst, props), keys, DESIRES) == OutHops(g, keys, DESIRES)
  {
    if keys != [] { LinkHops(g, src, kind, dst, props, keys[..|keys| - 1]); }
  }

  lemma UpsertDesired(g: Graph, e: Entity, site: Id)
    requires WellFormed(g) && Storable(e)
    requires forall k :: k in g.edges && g.edges[k].kind == CONFORMS_TO ==> g.edges[k].dst != e.id
    ensures WellFormed(Upsert(g, e)) && Desired(Upsert(g, e), site) == Desired(g, site)
  {
    UpsertWellFormed(g, e);
    UpsertHops(g, e, Bucket(g.outgoing, site));
  }

  lemma LinkClean(g: Graph, src: Id, kind: string, dst: Id, props: map<string, Value>)
    requires WellFormed(g) && CleanEdges(g) && Linkable(g, src, dst) && Clean(src) && Clean(kind)
    ensures WellFormed(Link(g, src, kind, dst, props)) && CleanEdges(Link(g, src, kind, dst, props))
    ensures var key := Key(src, kind, dst); key in g.edges ==> g.edges[key].kind == kind
  {
    LinkWellFormed(g, src, kind, dst, props);
    var key := Key(src, kind, dst);
    if key in g.edges {
      KeyInjective(src, kind, dst, g.edges[key].src, g.edges[key].kind, g.edges[key].dst);
    }
  }

  lemma OtherHop(g: Graph, keys: seq<string>, key: string)
    requires Resolves(g, keys + [key]) && g.edges[(keys + [key])[|keys|]].kind != CONFORMS_TO
    ensures Resolves(g, keys) && OutHops(g, keys + [key], DESIRES) == OutHops(g, keys, DESIRES)
  {
    assert (keys + [key])[..|keys|] == keys;
    assert forall i :: 0 <= i < |keys| ==> (keys + [key])[i] == keys[i];
  }

  ghost function DesiredHops(g: Graph, keys: seq<string>): seq<Hop>
    requires Resolves(g, keys)
  {
    OutHops(g, keys, DESIRES)
  }

  lemma LinkDesired(g: Graph, src: Id, kind: string, dst: Id, props: map<string, Value>, site: Id)
    requires Resolves(g, Bucket(g.outgoing, site)) && kind != CONFORMS_TO
    requires Resolves(Link(g, src, kind, dst, props), Bucket(Link(g, src, kind, dst, props).outgoing, site))
    requires var key := Key(src, kind, dst); key in g.edges ==> g.edges[key].kind == kind
    ensures DesiredHops(Link(g, src, kind, dst, props), Bucket(Link(g, src, kind, dst, props).outgoing, site))
         == DesiredHops(g, Bucket(g.outgoing, site))
  {
    var h, key, bucket := Link(g, src, kind, dst, props), Key(src, kind, dst), Bucket(g.outgoing, site);
    AddIndexBucket(g.outgoing, src, key, site);
    if Bucket(h.outgoing, site) != bucket { OtherHop(h, bucket, key); }
    LinkHops(g, src, kind, dst, props, bucket);
  }

  lemma DesiredIsHops(g: Graph, site: Id)
    requires WellFormed(g)
    ensures Resolves(g, Bucket(g.outgoing, site)) && Desired(g, site) == DesiredHops(g, Bucket(g.outgoing, site))
  {}

  lemma {:induction false} OfTypeKeeps(g: Graph, h: Graph, ids: seq<Id>, typ: string)
    requires forall id :: id in ids ==> id in g.entities && id in h.entities
    requires forall id :: id in ids ==>
               g.entities[id] == h.entities[id] || (g.entities[id].typ != typ && h.entities[id].typ != typ)
    ensures OfType(g, ids, Some(typ)) == OfType(h, ids, Some(typ))
  {
    if ids != [] {
      OfTypeKeeps(g, h, ids[..|ids| - 1], typ);
      assert ids[|ids| - 1] in ids;
    }
  }

  lemma OfTypeSkips(g: Graph, ids: seq<Id>)
    requires ids != [] && forall id :: id in ids ==> id in g.entities
    ensures var e := g.entities[ids[|ids| - 1]];
            OfType(g, ids, Some(OBSERVATION))
            == if e.typ == OBSERVATION then OfType(g, ids[..|ids| - 1], Some(OBSERVATION)) + [e]
               else OfType(g, ids[..|ids| - 1], Some(OBSERVATION))
  {}

  lemma LatestSnoc(c: Reading, os: seq<Entity>, o: Entity, subject: Value, metric: Value)
    ensures var prev := Latest(c, os, subject, metric);
            Latest(c, os + [o], subject, metric)
            == if Measures(o.data, subject, metric) && (prev.None? || When(c, o.data) >= When(c, prev.value))
               then Some(o.data) else prev
  {
    assert (os + [o])[..|os|] == os;
  }

  lemma ComplianceSnoc(c: Reading, os: seq<Entity>, o: Entity, site: Value, version: Value)
    ensures var prev := Compliance(c, os, site, version);
            Compliance(c, os + [o], site, version)
            == if Complies(o.data, site, version) && (prev.None? || When(c, o.data) > When(c, prev.value.data))
               then Some(o) else prev
  {
    assert (os + [o])[..|os|] == os;
  }

  /** Two graphs that agree on every observation of a metric agree on the latest one. */
  lemma {:induction false} LatestKeeps(c: Reading, g: Graph, h: Graph, ids: seq<Id>, subject: Value, metric: Value)
    requires forall id :: id in ids ==> id in g.entities && id in h.entities
    requires forall id :: id in ids ==>
               g.entities[id] == h.entities[id]
               || (g.entities[id].typ == h.entities[id].typ
                   && !Measures(g.entities[id].data, subject, metric) && !Measures(h.entities[id].data, subject, metric))
    ensures Latest(c, OfType(g, ids, Some(OBSERVATION)), subject, metric)
         == Latest(c, OfType(h, ids, Some(OBSERVATION)), subject, metric)
  {
    if ids != [] {
      var front, id := ids[..|ids| - 1], ids[|ids| - 1];
      LatestKeeps(c, g, h, front, subject, metric);
      assert id in ids;
      LatestSnoc(c, OfType(g, front, Some(OBSERVATION)), g.entities[id], subject, metric);
      LatestSnoc(c, OfType(h, front, Some(OBSERVATION)), h.entities[id], subject, metric);
      OfTypeSkips(g, ids);
      OfTypeSkips(h, ids);
    }
  }

  lemma {:induction false} ComplianceKeeps(c: Reading, g: Graph, h: Graph, ids: seq<Id>, site: Value, version: Value)
    requires forall id :: id in ids ==> id in g.entities && id in h.entities
    requires forall id :: id in ids ==>
               g.entities[id] == h.entities[id]
               || (g.entities[id].typ == h.entities[id].typ
                   && !Complies(g.entities[id].data, site, version) && !Complies(h.entities[id].data, site, version))
    ensures Compliance(c, OfType(g, ids, Some(OBSERVATION)), site, version)
         == Compliance(c, OfType(h, ids, Some(OBSERVATION)), site, version)
  {
    if ids != [] {
      var front, id := ids[..|ids| - 1], ids[|ids| - 1];
      ComplianceKeeps(c, g, h, front, site, version);
      assert id in ids;
      ComplianceSnoc(c, OfType(g, front, Some(OBSERVATION)), g.entities[id], site, version);
      ComplianceSnoc(c, OfType(h, front, Some(OBSERVATION)), h.entities[id], site, version);
      OfTypeSkips(g, ids);
      OfTypeSkips(h, ids);
    }
  }

  /** The one complying observation later than every other is the one that counts, wherever it stands. */
  lemma {:induction false} LatestCounts(c: Reading, os: seq<Entity>, site: Value, version: Value, o: Entity)
    requires o in os && Complies(o.data, site, version)
    requires forall x :: x in os && Complies(x.data, site, version) && x != o ==> When(c, x.data) < When(c, o.data)
    ensures Compliance(c, os, site, version) == Some(o)
  {
    var n := |os| - 1;
    SplitLast(os);
    if o in os[..n] {
      LatestCounts(c, os[..n], site, version, o);
    } else {
      CompliancePick(c, os[..n], site, version);
    }
  }

  lemma {:induction false} CompliancePick(c: Reading, os: seq<Entity>, site: Value, version: Value)
    ensures var r := Compliance(c, os, site, version); r.Some? ==> r.value in os && Complies(r.value.data, site, version)
  {
    if os != [] {
      CompliancePick(c, os[..|os| - 1], site, version);
      SplitLast(os);
    }
  }

  // ------------------------------------------------------------------ one record

  ghost predicate Ready(g: Graph) { WellFormed(g) && CleanEdges(g) && SENSOR in g.entities }

  /** Recording the verdict touches compliance only: its id is new or a compliance record's, and no version's. */
  ghost predicate Fits(g: Graph, v: Verdict) {
    var id := RecordId(v.site, v.version);
    && v.site in g.entities && v.site != "" && Clean(v.site)
    && (id in g.entities ==> g.entities[id].typ == OBSERVATION && Get(g.entities[id].data, "metric") == Str(COMPLIANCE))
    && (forall k :: k in g.edges && g.edges[k].kind == CONFORMS_TO ==> g.edges[k].dst != id)
  }

  /**
   * The verdict can be recorded without disturbing anything: its record id is new, or holds an older
   * record of the same pair; no version goes by that id; and its time is later than every record of the
   * pair under another id.
   */
  ghost predicate Pending(c: Reading, g: Graph, v: Verdict, at: string) {
    var id := RecordId(v.site, v.version);
    && Fits(g, v)
    && (id in g.entities ==> Complies(g.entities[id].data, Str(v.site), Str(v.version)))
    && (forall x :: x in g.entities && x != id && g.entities[x].typ == OBSERVATION
                    && Complies(g.entities[x].data, Str(v.site), Str(v.version)) ==>
          When(c, g.entities[x].data) < c.when(Str(at)))
  }

  /** Nothing but compliance has changed between the two graphs. */
  ghost predicate SameOtherwise(c: Reading, g: Graph, h: Graph)
    requires WellFormed(g) && WellFormed(h)
  {
    && Sites(g) == Sites(h)
    && (forall site :: Desired(g, site) == Desired(h, site))
    && (forall subject, metric :: metric != Str(COMPLIANCE) ==>
          Latest(c, Observations(g), subject, metric) == Latest(c, Observations(h), subject, metric))
  }

  /** The record as it stands in the graph afterwards. */
  function Stored(g: Graph, v: Verdict, at: string): Entity { Merged(g, Node(v, at)) }

  lemma StoredData(c: Reading, g: Graph, v: Verdict, at: string)
    ensures var s := Stored(g, v, at);
            && s.id == RecordId(v.site, v.version) && s.typ == OBSERVATION
            && Complies(s.data, Str(v.site), Str(v.version)) && When(c, s.data) == c.when(Str(at))
            && Get(s.data, "value") == Num(if Compliant(v) then 1.0 else 0.0)
  {}

  function First(g: Graph, v: Verdict, at: string): Graph { Upsert(g, Node(v, at)) }

  function Second(g: Graph, v: Verdict, at: string): Graph {
    Link(First(g, v, at), SENSOR, "OBSERVED", RecordId(v.site, v.version), Props(at))
  }

  lemma FirstReady(g: Graph, v: Verdict, at: string)
    requires Ready(g)
    ensures Ready(First(g, v, at)) && RecordId(v.site, v.version) in First(g, v, at).entities
    ensures First(g, v, at).entities.Keys == g.entities.Keys + {RecordId(v.site, v.version)}
  {
    RecordIdNotEmpty(v.site, v.version);
    UpsertWellFormed(g, Node(v, at));
  }

  lemma SecondReady(g: Graph, v: Verdict, at: string)
    requires Ready(First(g, v, at)) && RecordId(v.site, v.version) in First(g, v, at).entities
    ensures Ready(Second(g, v, at)) && Second(g, v, at).entities == First(g, v, at).entities
    ensures var f, key := First(g, v, at), Key(SENSOR, "OBSERVED", RecordId(v.site, v.version));
            key in f.edges ==> f.edges[key].kind == "OBSERVED"
  {
    assert Clean(SENSOR) && Clean("OBSERVED");
    LinkClean(First(g, v, at), SENSOR, "OBSERVED", RecordId(v.site, v.version), Props(at));
  }

  lemma RecordedReady(g: Graph, v: Verdict, at: string)
    requires Ready(Second(g, v, at)) && v.site in Second(g, v, at).entities && Clean(v.site)
    requires RecordId(v.site, v.version) in Second(g, v, at).entities
    ensures Ready(Recorded(g, v, at)) && Recorded(g, v, at).entities == Second(g, v, at).entities
    ensures var f, key := Second(g, v, at), Key(v.site, "OBSERVED_BY", RecordId(v.site, v.version));
            key in f.edges ==> f.edges[key].kind == "OBSERVED_BY"
  {
    assert Clean("OBSERVED_BY");
    LinkClean(Second(g, v, at), v.site, "OBSERVED_BY", RecordId(v.site, v.version), Props(at));
  }

  lemma RecordedDesired(g: Graph, v: Verdict, at: string, site: Id)
    requires Ready(g) && Ready(First(g, v, at)) && Ready(Second(g, v, at)) && Ready(Recorded(g, v, at))
    requires forall k :: k in g.edges && g.edges[k].kind == CONFORMS_TO ==> g.edges[k].dst != RecordId(v.site, v.version)
    requires var f, key := First(g, v, at), Key(SENSOR, "OBSERVED", RecordId(v.site, v.version));
             key in f.edges ==> f.edges[key].kind == "OBSERVED"
    requires var f, key := Second(g, v, at), Key(v.site, "OBSERVED_BY", RecordId(v.site, v.version));
             key in f.edges ==> f.edges[key].kind == "OBSERVED_BY"
    ensures Desired(Recorded(g, v, at), site) == Desired(g, site)
  {
    RecordIdNotEmpty(v.site, v.version);
    UpsertDesired(g, Node(v, at), site);
    DesiredIsHops(First(g, v, at), site);
    DesiredIsHops(Second(g, v, at), site);
    DesiredIsHops(Recorded(g, v, at), site);
    LinkDesired(First(g, v, at), SENSOR, "OBSERVED", RecordId(v.site, v.version), Props(at), site);
    LinkDesired(Second(g, v, at), v.site, "OBSERVED_BY", RecordId(v.site, v.version), Props(at), site);
  }

  lemma RecordedShape(g: Graph, v: Verdict, at: string)
    requires Ready(g) && v.site in g.entities && Clean(v.site)
    requires forall k :: k in g.edges && g.edges[k].kind == CONFORMS_TO ==> g.edges[k].dst != RecordId(v.site, v.version)
    ensures Ready(Recorded(g, v, at))
    ensures forall site :: Desired(Recorded(g, v, at), site) == Desired(g, site)
  {
    FirstReady(g, v, at);
    SecondReady(g, v, at);
    RecordedReady(g, v, at);
    forall site ensures Desired(Recorded(g, v, at), site) == Desired(g, site) { RecordedDesired(g, v, at, site); }
  }

  lemma RecordedEntities(g: Graph, v: Verdict, at: string)
    ensures var h, id := Recorded(g, v, at), RecordId(v.site, v.version);
            && h.entities == g.entities[id := Stored(g, v, at)]
            && h.order == (if id in g.entities then g.order else g.order + [id])
  {}

  lemma NewEdges(g: Graph, v: Verdict, at: string)
    ensures forall k :: k in Recorded(g, v, at).edges && Recorded(g, v, at).edges[k].kind == CONFORMS_TO ==>
              k in g.edges && g.edges[k] == Recorded(g, v, at).edges[k]
  {}

  function Tail(added: bool, o: Entity): seq<Entity> { if added then [o] else [] }

  /** Reading the graph's order after storing `s` is reading it before, plus the new id if there is one. */
  lemma OrderGrows(g: Graph, h: Graph, s: Entity, typ: string)
    requires WellFormed(g) && WellFormed(h) && h.entities == g.entities[s.id := s]
    requires h.order == if s.id in g.entities then g.order else g.order + [s.id]
    ensures forall x :: x in g.order ==> x in g.entities && x in h.entities && (x == s.id || h.entities[x] == g.entities[x])
    ensures OfType(h, h.order, Some(typ)) == OfType(h, g.order, Some(typ)) + Tail(s.id !in g.entities && s.typ == typ, s)
  {
    if s.id !in g.entities { assert h.order[..|g.order|] == g.order; }
  }

  /** Storing an observation where there was none, or only an observation, leaves the sites. */
  lemma StepSites(g: Graph, h: Graph, s: Entity)
    requires WellFormed(g) && WellFormed(h) && h.entities == g.entities[s.id := s]
    requires h.order == if s.id in g.entities then g.order else g.order + [s.id]
    requires s.typ == OBSERVATION && (s.id in g.entities ==> g.entities[s.id].typ == OBSERVATION)
    ensures Sites(h) == Sites(g)
  {
    OrderGrows(g, h, s, SITE);
    OfTypeKeeps(g, h, g.order, SITE);
    assert OfType(h, g.order, Some(SITE)) + [] == OfType(h, g.order, Some(SITE));
  }

  lemma LatestTail(c: Reading, os: seq<Entity>, o: Entity, added: bool, subject: Value, metric: Value)
    requires !Measures(o.data, subject, metric)
    ensures Latest(c, os + Tail(added, o), subject, metric) == Latest(c, os, subject, metric)
  {
    if added { LatestSnoc(c, os, o, subject, metric); } else { assert os + [] == os; }
  }

  lemma ComplianceTail(c: Reading, os: seq<Entity>, o: Entity, added: bool, site: Value, version: Value)
    requires !Complies(o.data, site, version)
    ensures Compliance(c, os + Tail(added, o), site, version) == Compliance(c, os, site, version)
  {
    if added { ComplianceSnoc(c, os, o, site, version); } else { assert os + [] == os; }
  }

  lemma CompliesOnly(d: Data, subject: Value, metric: Value)
    requires Get(d, "metric") == Str(COMPLIANCE) && metric != Str(COMPLIANCE)
    ensures !Measures(d, subject, metric)
  {}

  /** `h` is `g` with the observation `s` of the verdict's pair stored. */
  ghost predicate Gained(g: Graph, h: Graph, v: Verdict, s: Entity) {
    && WellFormed(g) && WellFormed(h)
    && h.entities == g.entities[s.id := s]
    && Observations(h) == OfType(h, g.order, Some(OBSERVATION)) + Tail(s.id !in g.entities, s)
    && s.typ == OBSERVATION && Complies(s.data, Str(v.site), Str(v.version))
    && (s.id in g.entities ==> g.entities[s.id].typ == OBSERVATION && Get(g.entities[s.id].data, "metric") == Str(COMPLIANCE))
  }

  lemma RecordedGains(c: Reading, g: Graph, v: Verdict, at: string)
    requires Ready(g) && Fits(g, v) && Ready(Recorded(g, v, at))
    ensures Gained(g, Recorded(g, v, at), v, Stored(g, v, at))
  {
    RecordedEntities(g, v, at);
    StoredData(c, g, v, at);
    OrderGrows(g, Recorded(g, v, at), Stored(g, v, at), OBSERVATION);
  }

  lemma StepLatest(c: Reading, g: Graph, h: Graph, v: Verdict, s: Entity, subject: Value, metric: Value)
    requires Gained(g, h, v, s) && metric != Str(COMPLIANCE)
    ensures Latest(c, Observations(h), subject, metric) == Latest(c, Observations(g), subject, metric)
  {
    CompliesOnly(s.data, subject, metric);
    if s.id in g.entities { CompliesOnly(g.entities[s.id].data, subject, metric); }
    LatestThrough(c, g, h, s, s.id !in g.entities, subject, metric);
  }

  lemma LatestThrough(c: Reading, g: Graph, h: Graph, s: Entity, added: bool, subject: Value, metric: Value)
    requires WellFormed(g) && WellFormed(h) && forall id :: id in g.order ==> id in g.entities && id in h.entities
    requires forall id :: id in g.order ==>
               g.entities[id] == h.entities[id]
               || (g.entities[id].typ == h.entities[id].typ
                   && !Measures(g.entities[id].data, subject, metric) && !Measures(h.entities[id].data, subject, metric))
    requires Observations(h) == OfType(h, g.order, Some(OBSERVATION)) + Tail(added, s) && !Measures(s.data, subject, metric)
    ensures Latest(c, Observations(h), subject, metric) == Latest(c, Observations(g), subject, metric)
  {
    LatestKeeps(c, g, h, g.order, subject, metric);
    LatestTail(c, OfType(h, g.order, Some(OBSERVATION)), s, added, subject, metric);
  }

  lemma StepSame(c: Reading, g: Graph, v: Verdict, at: string)
    requires Ready(g) && Fits(g, v)
    ensures Ready(Recorded(g, v, at)) && SameOtherwise(c, g, Recorded(g, v, at))
  {
    RecordedShape(g, v, at);
    RecordedGains(c, g, v, at);
    RecordedEntities(g, v, at);
    StepSites(g, Recorded(g, v, at), Stored(g, v, at));
    forall subject, metric | metric != Str(COMPLIANCE)
      ensures Latest(c, Observations(Recorded(g, v, at)), subject, metric) == Latest(c, Observations(g), subject, metric)
    {
      StepLatest(c, g, Recorded(g, v, at), v, Stored(g, v, at), subject, metric);
    }
  }

  /** The new record is the one that counts for its pair. */
  lemma StepCounts(c: Reading, g: Graph, v: Verdict, at: string)
    requires Ready(g) && Pending(c, g, v, at) && Ready(Recorded(g, v, at))
    ensures Compliance(c, Observations(Recorded(g, v, at)), Str(v.site), Str(v.version)) == Some(Stored(g, v, at))
  {
    var h, s := Recorded(g, v, at), Stored(g, v, at);
    RecordedEntities(g, v, at);
    StoredData(c, g, v, at);
    OfTypeMembers(h, h.order, OBSERVATION, s);
    forall x | x in Observations(h) && Complies(x.data, Str(v.site), Str(v.version)) && x != s
      ensures When(c, x.data) < When(c, s.data)
    {
      OfTypeMembers(h, h.order, OBSERVATION, x);
      assert x.id != s.id && g.entities[x.id] == x;
    }
    LatestCounts(c, Observations(h), Str(v.site), Str(v.version), s);
  }

  /** What counts for another pair is what counted before. */
  lemma StepKeepsOther(c: Reading, g: Graph, h: Graph, v: Verdict, s: Entity, w: Verdict)
    requires Gained(g, h, v, s) && RecordId(v.site, v.version) != RecordId(w.site, w.version)
    requires s.id in g.entities ==> Complies(g.entities[s.id].data, Str(v.site), Str(v.version))
    ensures Compliance(c, Observations(h), Str(w.site), Str(w.version))
         == Compliance(c, Observations(g), Str(w.site), Str(w.version))
  {
    ComplianceKeeps(c, g, h, g.order, Str(w.site), Str(w.version));
    ComplianceTail(c, OfType(h, g.order, Some(OBSERVATION)), s, s.id !in g.entities, Str(w.site), Str(w.version));
  }

  /** A verdict still to be recorded can be recorded afterwards too. */
  lemma StepPending(c: Reading, g: Graph, v: Verdict, at: string, w: Verdict, later: string)
    requires Ready(g) && Pending(c, g, v, at) && Pending(c, g, w, later)
    requires RecordId(v.site, v.version) != RecordId(w.site, w.version)
    ensures Pending(c, Recorded(g, v, at), w, later)
  {
    var h, id := Recorded(g, v, at), RecordId(v.site, v.version);
    RecordedEntities(g, v, at);
    StoredData(c, g, v, at);
    NewEdges(g, v, at);
    assert !Complies(h.entities[id].data, Str(w.site), Str(w.version));
  }

  // ------------------------------------------------------------------ all records

  function IdOf(v: Verdict): Id { RecordId(v.site, v.version) }

  /** Everything can be recorded, and no two verdicts share a record id. */
  ghost predicate AllPending(c: Reading, g: Graph, vs: seq<Verdict>, at: seq<string>) {
    && |vs| == |at|
    && (forall i :: 0 <= i < |vs| ==> Pending(c, g, vs[i], at[i]))
    && (forall i, j :: 0 <= i < j < |vs| ==> IdOf(vs[i]) != IdOf(vs[j]))
  }

  /** The record that counts for the verdict's pair is the verdict's own. */
  ghost predicate Told(c: Reading, g: Graph, v: Verdict)
    requires WellFormed(g)
  {
    var o := Compliance(c, Observations(g), Str(v.site), Str(v.version));
    o.Some? && o.value.id == IdOf(v) && Get(o.value.data, "value") == Num(if Compliant(v) then 1.0 else 0.0)
  }

  /** After the first `n` records: they are told, nothing else has changed, and the rest can still be recorded. */
  ghost predicate Progressed(c: Reading, g: Graph, h: Graph, vs: seq<Verdict>, at: seq<string>, n: nat)
    requires n <= |vs| == |at|
  {
    && Ready(g) && Ready(h) && SameOtherwise(c, g, h)
    && (forall i :: 0 <= i < n ==> Told(c, h, vs[i]))
    && (forall i :: n <= i < |vs| ==> Pending(c, h, vs[i], at[i]))
  }

  lemma SameTransitive(c: Reading, g: Graph, h: Graph, k: Graph)
    requires WellFormed(g) && WellFormed(h) && WellFormed(k) && SameOtherwise(c, g, h) && SameOtherwise(c, h, k)
    ensures SameOtherwise(c, g, k)
  {}

  lemma StepTold(c: Reading, g: Graph, h: Graph, v: Verdict, s: Entity, w: Verdict)
    requires Gained(g, h, v, s) && IdOf(v) != IdOf(w) && Told(c, g, w)
    requires s.id in g.entities ==> Complies(g.entities[s.id].data, Str(v.site), Str(v.version))
    ensures Told(c, h, w)
  {
    StepKeepsOther(c, g, h, v, s, w);
  }

  lemma StepTells(c: Reading, g: Graph, v: Verdict, at: string)
    requires Ready(g) && Pending(c, g, v, at)
    ensures Ready(Recorded(g, v, at)) && SameOtherwise(c, g, Recorded(g, v, at)) && Told(c, Recorded(g, v, at), v)
    ensures Gained(g, Recorded(g, v, at), v, Stored(g, v, at))
  {
    StepSame(c, g, v, at);
    StepCounts(c, g, v, at);
    StoredData(c, g, v, at);
    RecordedGains(c, g, v, at);
  }

  lemma ProgressTold(c: Reading, h: Graph, k: Graph, vs: seq<Verdict>, n: nat, s: Entity)
    requires n < |vs| && Gained(h, k, vs[n], s) && Told(c, k, vs[n])
    requires s.id in h.entities ==> Complies(h.entities[s.id].data, Str(vs[n].site), Str(vs[n].version))
    requires forall i :: 0 <= i < n ==> Told(c, h, vs[i])
    requires forall i, j :: 0 <= i < j < |vs| ==> IdOf(vs[i]) != IdOf(vs[j])
    ensures forall i :: 0 <= i < n + 1 ==> Told(c, k, vs[i])
  {
    forall i | 0 <= i < n ensures Told(c, k, vs[i]) { StepTold(c, h, k, vs[n], s, vs[i]); }
  }

  lemma ProgressStep(c: Reading, g: Graph, h: Graph, vs: seq<Verdict>, at: seq<string>, n: nat)
    requires n < |vs| == |at| && Progressed(c, g, h, vs, at, n)
    requires forall i, j :: 0 <= i < j < |vs| ==> IdOf(vs[i]) != IdOf(vs[j])
    ensures Progressed(c, g, Recorded(h, vs[n], at[n]), vs, at, n + 1)
  {
    StepTells(c, h, vs[n], at[n]);
    SameTransitive(c, g, h, Recorded(h, vs[n], at[n]));
    ProgressTold(c, h, Recorded(h, vs[n], at[n]), vs, n, Stored(h, vs[n], at[n]));
    forall i | n < i < |vs| ensures Pending(c, Recorded(h, vs[n], at[n]), vs[i], at[i]) {
      StepPending(c, h, vs[n], at[n], vs[i], at[i]);
    }
  }

  lemma {:induction false} RecordAllTells(c: Reading, g: Graph, vs: seq<Verdict>, at: seq<string>, n: nat)
    requires Ready(g) && AllPending(c, g, vs, at) && n <= |vs|
    ensures var r := RecordAll(g, vs[..n], at[..n]);
            r.ok && Progressed(c, g, r.graph, vs, at, n)
  {
    if n > 0 {
      assert vs[..n][..n - 1] == vs[..n - 1] && at[..n][..n - 1] == at[..n - 1];
      RecordAllTells(c, g, vs, at, n - 1);
      var h := RecordAll(g, vs[..n - 1], at[..n - 1]).graph;
      assert Pending(c, h, vs[n - 1], at[n - 1]);
      RecordProjects(h, vs[n - 1], at[n - 1]);
      ProgressStep(c, g, h, vs, at, n - 1);
    }
  }

  // ------------------------------------------------------------------ the whole pass

  lemma {:induction false} RecordAllWellFormed(g: Graph, vs: seq<Verdict>, at: seq<string>)
    requires WellFormed(g) && |vs| == |at|
    ensures WellFormed(RecordAll(g, vs, at).graph)
  {
    if vs != [] {
      var n := |vs| - 1;
      RecordAllWellFormed(g, vs[..n], at[..n]);
      Replay.ExecWellFormed(RecordAll(g, vs[..n], at[..n]).graph, Commands(RecordEvent(vs[n], at[n])));
    }
  }

  /** The times of `count` records, from the pass's record number `from` on. */
  function Times(clock: nat -> string, from: nat, count: nat): (at: seq<string>)
    ensures |at| == count
  {
    seq(count, i requires 0 <= i < count => clock(from + i))
  }

  datatype Pass = Pass(graph: Graph, ok: bool, count: nat)

  /** Judge and record site after site, each on the graph the one before it left. */
  ghost function ConformAll(c: Reading, g: Graph, sites: seq<Entity>, clock: nat -> string): (p: Pass)
    requires WellFormed(g)
    ensures WellFormed(p.graph)
  {
    if sites == [] then Pass(g, true, 0)
    else
      var p := ConformAll(c, g, sites[..|sites| - 1], clock);
      if !p.ok then p
      else
        var vs := Evaluation(c, p.graph, sites[|sites| - 1]);
        var at := Times(clock, p.count, |vs|);
        RecordAllWellFormed(p.graph, vs, at);
        Pass(RecordAll(p.graph, vs, at).graph, RecordAll(p.graph, vs, at).ok, p.count + |vs|)
  }

  /** The same verdicts, all taken on the first graph. */
  ghost function Verdicts(c: Reading, g: Graph, sites: seq<Entity>): seq<Verdict>
    requires WellFormed(g)
  {
    if sites == [] then [] else Verdicts(c, g, sites[..|sites| - 1]) + Evaluation(c, g, sites[|sites| - 1])
  }

  /** The script's loop. */
  method ConformSites(evaluator: ConformanceEvaluator, bus: Bus.EventBus, sites: seq<Entity>, clock: nat -> string)
    returns (ok: bool)
    requires bus.Valid() && evaluator.graph == bus.graph && forall s :: s in sites ==> s.id != ""
    modifies bus, bus.graph
    ensures bus.Valid()
    ensures var p := ConformAll(evaluator.reading, old(bus.graph.View()), sites, clock);
            ok == p.ok && bus.graph.View() == p.graph
  {
    ghost var g := bus.graph.View();
    var count: nat := 0;
    for n := 0 to |sites|
      invariant bus.Valid()
      invariant ConformAll(evaluator.reading, g, sites[..n], clock) == Pass(bus.graph.View(), true, count)
    {
      assert sites[..n + 1][..n] == sites[..n];
      var results := evaluator.EvaluateSite(sites[n]);
      ok := evaluator.RecordCompliance(bus, results, Times(clock, count, |results|));
      count := count + |results|;
      if !ok {
        PassStops(evaluator.reading, g, sites, clock, n + 1);
        return;
      }
    }
    assert sites[..|sites|] == sites;
    ok := true;
  }

  lemma {:induction false} PassStops(c: Reading, g: Graph, sites: seq<Entity>, clock: nat -> string, n: nat)
    requires WellFormed(g) && n <= |sites| && !ConformAll(c, g, sites[..n], clock).ok
    ensures ConformAll(c, g, sites, clock) == ConformAll(c, g, sites[..n], clock)
    decreases |sites| - n
  {
    if n == |sites| {
      assert sites[..n] == sites;
    } else {
      assert sites[..n + 1][..n] == sites[..n];
      PassStops(c, g, sites, clock, n + 1);
    }
  }

  lemma OtherMetrics()
    ensures Str("llms_txt.present") != Str(COMPLIANCE) && Str("robots_txt.present") != Str(COMPLIANCE)
    ensures Str("http.status") != Str(COMPLIANCE) && Str("api.calls") != Str(COMPLIANCE)
  {
    assert "llms_txt.present"[0] != COMPLIANCE[0] && "robots_txt.present"[0] != COMPLIANCE[0];
    assert "http.status"[0] != COMPLIANCE[0] && "api.calls"[0] != COMPLIANCE[0];
  }

  lemma SameLatest(c: Reading, g: Graph, h: Graph, site: Id, metric: string)
    requires WellFormed(g) && WellFormed(h) && SameOtherwise(c, g, h) && Str(metric) != Str(COMPLIANCE)
    ensures Latest(c, Observations(h), Str(site), Str(metric)) == Latest(c, Observations(g), Str(site), Str(metric))
  {}

  lemma SameFacts(c: Reading, g: Graph, h: Graph, site: Id)
    requires WellFormed(g) && WellFormed(h) && SameOtherwise(c, g, h)
    ensures FactsOf(c, Observations(h), site) == FactsOf(c, Observations(g), site)
  {
    OtherMetrics();
    SameLatest(c, g, h, site, "llms_txt.present");
    SameLatest(c, g, h, site, "robots_txt.present");
    SameLatest(c, g, h, site, "http.status");
    SameLatest(c, g, h, site, "api.calls");
  }

  lemma SameEvaluation(c: Reading, g: Graph, h: Graph, site: Entity)
    requires WellFormed(g) && WellFormed(h) && SameOtherwise(c, g, h)
    ensures Evaluation(c, h, site) == Evaluation(c, g, site)
  {
    SameFacts(c, g, h, site.id);
    assert Desired(h, site.id) == Desired(g, site.id);
  }

  lemma PendingPrefix(c: Reading, g: Graph, vs: seq<Verdict>, ws: seq<Verdict>, clock: nat -> string)
    requires AllPending(c, g, vs + ws, Times(clock, 0, |vs + ws|))
    ensures AllPending(c, g, vs, Times(clock, 0, |vs|))
  {
    forall i | 0 <= i < |vs| ensures Pending(c, g, vs[i], Times(clock, 0, |vs|)[i]) {
      assert (vs + ws)[i] == vs[i] && Times(clock, 0, |vs + ws|)[i] == Times(clock, 0, |vs|)[i];
    }
    forall i, j | 0 <= i < j < |vs| ensures IdOf(vs[i]) != IdOf(vs[j]) {
      assert (vs + ws)[i] == vs[i] && (vs + ws)[j] == vs[j];
    }
  }

  /** One more site: its verdicts are those of the first graph, and its records follow the others. */
  lemma SiteFollows(c: Reading, g: Graph, vs: seq<Verdict>, site: Entity, clock: nat -> string)
    requires Ready(g) && AllPending(c, g, vs, Times(clock, 0, |vs|))
    ensures var r := RecordAll(g, vs, Times(clock, 0, |vs|));
            r.ok && WellFormed(r.graph) && Evaluation(c, r.graph, site) == Evaluation(c, g, site)
  {
    var at := Times(clock, 0, |vs|);
    assert vs[..|vs|] == vs && at[..|vs|] == at;
    RecordAllTells(c, g, vs, at, |vs|);
    SameEvaluation(c, g, RecordAll(g, vs, at).graph, site);
  }

  lemma TimesConcat(clock: nat -> string, m: nat, n: nat)
    ensures Times(clock, 0, m + n) == Times(clock, 0, m) + Times(clock, m, n)
  {}

  /** One more site: it is judged and recorded on the graph the others left. */
  lemma PassStep(c: Reading, g: Graph, sites: seq<Entity>, clock: nat -> string, h: Graph, count: nat)
    requires WellFormed(g) && sites != [] && WellFormed(h)
    requires ConformAll(c, g, sites[..|sites| - 1], clock) == Pass(h, true, count)
    ensures var ws := Evaluation(c, h, sites[|sites| - 1]);
            var r := RecordAll(h, ws, Times(clock, count, |ws|));
            ConformAll(c, g, sites, clock) == Pass(r.graph, r.ok, count + |ws|)
  {}

  /** Judged as on the first graph, its verdicts are recorded behind the others. */
  lemma PassGrows(c: Reading, g: Graph, sites: seq<Entity>, clock: nat -> string, h: Graph)
    requires WellFormed(g) && sites != [] && WellFormed(h)
    requires var n := |sites| - 1;
             var vs := Verdicts(c, g, sites[..n]);
             && RecordAll(g, vs, Times(clock, 0, |vs|)) == Outcome(h, true)
             && Evaluation(c, h, sites[n]) == Evaluation(c, g, sites[n])
             && ConformAll(c, g, sites[..n], clock) == Pass(h, true, |vs|)
    ensures var vs := Verdicts(c, g, sites);
            var p, r := ConformAll(c, g, sites, clock), RecordAll(g, vs, Times(clock, 0, |vs|));
            p == Pass(r.graph, r.ok, |vs|)
  {
    var n := |sites| - 1;
    var vs, ws := Verdicts(c, g, sites[..n]), Evaluation(c, g, sites[n]);
    PassStep(c, g, sites, clock, h, |vs|);
    RecordsGrow(g, h, vs, ws, clock);
  }

  lemma RecordsGrow(g: Graph, h: Graph, vs: seq<Verdict>, ws: seq<Verdict>, clock: nat -> string)
    requires RecordAll(g, vs, Times(clock, 0, |vs|)) == Outcome(h, true)
    ensures RecordAll(g, vs + ws, Times(clock, 0, |vs + ws|)) == RecordAll(h, ws, Times(clock, |vs|, |ws|))
  {
    FoldGrows(RecordStep(), Outcome(g, true), Outcome(h, true), vs, ws, clock);
  }

  lemma FoldGrows(step: (Outcome, Verdict, string) -> Outcome, r: Outcome, q: Outcome, vs: seq<Verdict>, ws: seq<Verdict>,
                  clock: nat -> string)
    requires Fold(step, r, vs, Times(clock, 0, |vs|)) == q
    ensures Fold(step, r, vs + ws, Times(clock, 0, |vs + ws|)) == Fold(step, q, ws, Times(clock, |vs|, |ws|))
  {
    TimesConcat(clock, |vs|, |ws|);
    FoldConcat(step, r, vs, Times(clock, 0, |vs|), ws, Times(clock, |vs|, |ws|));
  }

  /** Judging on the changing graph gives the verdicts of the first graph. */
  lemma {:induction false} PassIsRecordAll(c: Reading, g: Graph, sites: seq<Entity>, clock: nat -> string)
    requires Ready(g) && AllPending(c, g, Verdicts(c, g, sites), Times(clock, 0, |Verdicts(c, g, sites)|))
    ensures var vs := Verdicts(c, g, sites);
            var p, r := ConformAll(c, g, sites, clock), RecordAll(g, vs, Times(clock, 0, |vs|));
            p == Pass(r.graph, r.ok, |vs|)
  {
    if sites != [] {
      var front, site := sites[..|sites| - 1], sites[|sites| - 1];
      var vs, ws := Verdicts(c, g, front), Evaluation(c, g, site);
      PendingPrefix(c, g, vs, ws, clock);
      PassIsRecordAll(c, g, front, clock);
      SiteFollows(c, g, vs, site, clock);
      PassGrows(c, g, sites, clock, RecordAll(g, vs, Times(clock, 0, |vs|)).graph);
    }
  }

  // ------------------------------------------------------------------ the drift

  /** What drift should be: one noncompliant entry per verdict with a failed required check, in order. */
  function Failing(site: Entity, vs: seq<Verdict>): seq<Drift> {
    if vs == [] then []
    else
      var v := vs[|vs| - 1];
      Failing(site, vs[..|vs| - 1])
      + if Compliant(v) then [] else [Drift(site.id, NameOf(site), v.version, Noncompliant, Some(IdOf(v)))]
  }

  ghost function AllFailing(c: Reading, g: Graph, sites: seq<Entity>): seq<Drift>
    requires WellFormed(g)
  {
    if sites == [] then []
    else AllFailing(c, g, sites[..|sites| - 1]) + Failing(sites[|sites| - 1], Evaluation(c, g, sites[|sites| - 1]))
  }

  lemma {:induction false} ToldDrift(c: Reading, g: Graph, f: Facts, site: Entity, hops: seq<Hop>)
    requires WellFormed(g) && forall i :: 0 <= i < |hops| ==> Told(c, g, Judge(c, f, site, hops[i].entity))
    ensures SiteDrift(c, Observations(g), site, hops) == Failing(site, Judged(c, f, site, hops))
  {
    if hops != [] {
      var n := |hops| - 1;
      ToldDrift(c, g, f, site, hops[..n]);
      assert Judged(c, f, site, hops)[..n] == Judged(c, f, site, hops[..n]);
      assert Told(c, g, Judge(c, f, site, hops[n].entity));
    }
  }

  lemma {:induction false} VerdictIn(c: Reading, g: Graph, sites: seq<Entity>, site: Entity, v: Verdict)
    requires WellFormed(g) && site in sites && v in Evaluation(c, g, site)
    ensures v in Verdicts(c, g, sites)
  {
    SplitLast(sites);
    if site != sites[|sites| - 1] { VerdictIn(c, g, sites[..|sites| - 1], site, v); }
  }

  lemma SiteDriftIsFailing(c: Reading, g: Graph, h: Graph, site: Entity, vs: seq<Verdict>)
    requires WellFormed(g) && WellFormed(h) && Desired(h, site.id) == Desired(g, site.id)
    requires forall i :: 0 <= i < |vs| ==> Told(c, h, vs[i])
    requires forall v :: v in Evaluation(c, g, site) ==> v in vs
    ensures SiteDrift(c, Observations(h), site, Desired(h, site.id)) == Failing(site, Evaluation(c, g, site))
  {
    var f, hops := FactsOf(c, Observations(g), site.id), Desired(g, site.id);
    forall i | 0 <= i < |hops| ensures Told(c, h, Judge(c, f, site, hops[i].entity)) {
      assert Evaluation(c, g, site)[i] == Judge(c, f, site, hops[i].entity);
      assert Judge(c, f, site, hops[i].entity) in vs;
    }
    ToldDrift(c, h, f, site, hops);
  }

  lemma {:induction false} DriftIsFailing(c: Reading, g: Graph, h: Graph, sites: seq<Entity>, vs: seq<Verdict>)
    requires WellFormed(g) && WellFormed(h) && forall id :: Desired(h, id) == Desired(g, id)
    requires forall i :: 0 <= i < |vs| ==> Told(c, h, vs[i])
    requires forall s, v :: s in sites && v in Evaluation(c, g, s) ==> v in vs
    ensures AllDrift(c, h, sites) == AllFailing(c, g, sites)
  {
    if sites != [] {
      var site := sites[|sites| - 1];
      assert site in sites && forall s :: s in sites[..|sites| - 1] ==> s in sites;
      DriftIsFailing(c, g, h, sites[..|sites| - 1], vs);
      SiteDriftIsFailing(c, g, h, site, vs);
    }
  }

  /**
   * The standards loop closes: once every site has been judged and recorded, in any order and whatever
   * observations the graph held in whatever order, drift is exactly the desired pairs with a failed
   * required check, each marked noncompliant and pointing at its own record.
   */
  lemma DriftIsExactlyFailure(c: Reading, g: Graph, sites: seq<Entity>, clock: nat -> string)
    requires Ready(g) && AllPending(c, g, Verdicts(c, g, sites), Times(clock, 0, |Verdicts(c, g, sites)|))
    requires forall s :: s in Sites(g) ==> s in sites
    ensures var p := ConformAll(c, g, sites, clock);
            p.ok && StandardDriftOf(c, p.graph) == AllFailing(c, g, Sites(g))
  {
    PassIsRecordAll(c, g, sites, clock);
    AllTold(c, g, sites, clock);
    forall s, v | s in Sites(g) && v in Evaluation(c, g, s) ensures v in Verdicts(c, g, sites) {
      VerdictIn(c, g, sites, s, v);
    }
    DriftIsFailing(c, g, ConformAll(c, g, sites, clock).graph, Sites(g), Verdicts(c, g, sites));
  }

  lemma AllTold(c: Reading, g: Graph, sites: seq<Entity>, clock: nat -> string)
    requires Ready(g) && AllPending(c, g, Verdicts(c, g, sites), Times(clock, 0, |Verdicts(c, g, sites)|))
    requires ConformAll(c, g, sites, clock).graph
          == RecordAll(g, Verdicts(c, g, sites), Times(clock, 0, |Verdicts(c, g, sites)|)).graph
    ensures RecordAll(g, Verdicts(c, g, sites), Times(clock, 0, |Verdicts(c, g, sites)|)).ok
    ensures var h, vs := ConformAll(c, g, sites, clock).graph, Verdicts(c, g, sites);
            SameOtherwise(c, g, h) && forall i :: 0 <= i < |vs| ==> Told(c, h, vs[i])
  {
    var vs := Verdicts(c, g, sites);
    var at := Times(clock, 0, |vs|);
    assert vs[..|vs|] == vs && at[..|vs|] == at;
    RecordAllTells(c, g, vs, at, |vs|);
  }
}
