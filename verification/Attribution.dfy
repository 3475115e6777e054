/**
 * Attribution over enumerated paths: what `usageAttribution`, `bestProducts` and the
 * process ranking compute, stated over the graph instead of over the search.
 */
module Attribution {
  import opened Values
  import opened GraphModel
  import opened Paths
  import opened Search
  import opened GraphStore
  import opened Sorting

  ghost function Outward(g: Graph): Adjacency
    requires Navigable(g)
  {
    Adj(g, Out, None)
  }

  /** `id` lies between one and `maxDepth` hops downstream of `origin`. */
  ghost predicate Downstream(g: Graph, origin: Id, maxDepth: int, id: Id)
    requires Navigable(g)
  {
    exists d: nat :: IsDistance(Outward(g), origin, id, d) && 1 <= d <= maxDepth
  }

  /** The admissible paths from `origin` to `id`. */
  ghost function PathsTo(g: Graph, origin: Id, maxDepth: int, id: Id): set<Walk>
    requires Navigable(g)
  {
    set w | w in Enumerated(Outward(g), origin, maxDepth) && End(origin, w) == id
  }

  lemma PathsToIffAdmissible(g: Graph, origin: Id, maxDepth: int, id: Id, w: Walk)
    requires Navigable(g)
    ensures w in PathsTo(g, origin, maxDepth, id) <==>
            Admissible(Outward(g), origin, maxDepth, w) && End(origin, w) == id
  {
    EnumeratedIffAdmissible(Outward(g), origin, maxDepth, w);
  }

  /** `id` is stored with a property the analytics filter on. */
  predicate Matches(g: Graph, matches: Entity -> bool, id: Id) { id in g.entities && matches(g.entities[id]) }

  /** A value counted `n` times. */
  function Weighed(x: real, n: nat): real { x * n as real }

  ghost function Portion(g: Graph, origin: Id, maxDepth: int, matches: Entity -> bool, val: Entity -> real, id: Id): real
    requires Navigable(g)
  {
    if Matches(g, matches, id) then Weighed(val(g.entities[id]), |PathsTo(g, origin, maxDepth, id)|) else 0.0
  }

  /** Sum over the listed ids of value times number of admissible paths. */
  ghost function Weighted(g: Graph, origin: Id, maxDepth: int, matches: Entity -> bool, val: Entity -> real, ids: seq<Id>): real
    requires Navigable(g)
  {
    if ids == [] then 0.0
    else
      var id := ids[|ids| - 1];
      Weighted(g, origin, maxDepth, matches, val, ids[..|ids| - 1])
      + Portion(g, origin, maxDepth, matches, val, id)
  }

  // ------------------------------------------------------------------ what the code computes

  function Picked(matches: Entity -> bool, found: seq<Found>): seq<Found> {
    if found == [] then []
    else
      Picked(matches, found[..|found| - 1])
      + if matches(found[|found| - 1].entity) then [found[|found| - 1]] else []
  }

  function Total(val: Entity -> real, found: seq<Found>): real {
    if found == [] then 0.0 else Total(val, found[..|found| - 1]) + val(found[|found| - 1].entity)
  }

  function Ids(found: seq<Found>): set<Id> { set f | f in found :: f.entity.id }

  // ------------------------------------------------------------------ double counting

  /** Every reported path ends in a stored entity and carries that entity. */
  ghost predicate EndsStored(g: Graph, origin: Id, ws: seq<Walk>) {
    forall i :: 0 <= i < |ws| ==> EndStored(g, origin, ws[i])
  }

  predicate All(f: Found) { true }

  /** Number of listed walks that end in `id`. */
  ghost function Count(origin: Id, ws: seq<Walk>, id: Id): nat {
    if ws == [] then 0
    else Count(origin, ws[..|ws| - 1], id) + if End(origin, ws[|ws| - 1]) == id then 1 else 0
  }

  ghost function Share(g: Graph, origin: Id, matches: Entity -> bool, val: Entity -> real, ws: seq<Walk>, id: Id): real {
    if Matches(g, matches, id) then Weighed(val(g.entities[id]), Count(origin, ws, id)) else 0.0
  }

  /** The same sum counted by target instead of by path. */
  ghost function Tally(g: Graph, origin: Id, matches: Entity -> bool, val: Entity -> real, ws: seq<Walk>, ids: seq<Id>): real {
    if ids == [] then 0.0
    else
      Tally(g, origin, matches, val, ws, ids[..|ids| - 1]) + Share(g, origin, matches, val, ws, ids[|ids| - 1])
  }

  lemma CountSnoc(origin: Id, ws: seq<Walk>, w: Walk, id: Id)
    ensures Count(origin, ws + [w], id) == Count(origin, ws, id) + if End(origin, w) == id then 1 else 0
  {
    assert (ws + [w])[..|ws|] == ws;
  }

  lemma OneMore(x: real, c: nat)
    ensures Weighed(x, c + 1) == Weighed(x, c) + x && Weighed(x, 0) == 0.0
  {}

  ghost function Own(g: Graph, matches: Entity -> bool, val: Entity -> real, id: Id): real {
    if Matches(g, matches, id) then val(g.entities[id]) else 0.0
  }

  lemma ShareSnoc(g: Graph, origin: Id, matches: Entity -> bool, val: Entity -> real, ws: seq<Walk>, w: Walk, id: Id)
    ensures Share(g, origin, matches, val, ws + [w], id)
         == Share(g, origin, matches, val, ws, id) + if End(origin, w) == id then Own(g, matches, val, id) else 0.0
  {
    CountSnoc(origin, ws, w, id);
    if End(origin, w) == id && Matches(g, matches, id) {
      OneMore(val(g.entities[id]), Count(origin, ws, id));
    }
  }

  lemma {:induction false} TallySnoc(g: Graph, origin: Id, matches: Entity -> bool, val: Entity -> real,
                                     ws: seq<Walk>, w: Walk, ids: seq<Id>)
    requires NoRepeats(ids)
    ensures Tally(g, origin, matches, val, ws + [w], ids)
         == Tally(g, origin, matches, val, ws, ids)
            + if End(origin, w) in ids then Own(g, matches, val, End(origin, w)) else 0.0
  {
    if ids != [] {
      var n := |ids| - 1;
      TallySnoc(g, origin, matches, val, ws, w, ids[..n]);
      ShareSnoc(g, origin, matches, val, ws, w, ids[n]);
      InSplit(ids, End(origin, w));
    }
  }

  lemma InSplit(ids: seq<Id>, x: Id)
    requires ids != []
    ensures x in ids <==> x in ids[..|ids| - 1] || x == ids[|ids| - 1]
  {
    SplitLast(ids);
  }

  lemma {:induction false} TallyEmpty(g: Graph, origin: Id, matches: Entity -> bool, val: Entity -> real, ws: seq<Walk>, ids: seq<Id>)
    requires ws == []
    ensures Tally(g, origin, matches, val, ws, ids) == 0.0
  {
    if ids != [] { TallyEmpty(g, origin, matches, val, ws, ids[..|ids| - 1]); }
  }

  /** The total the code sums path by path is the tally by target. */
  lemma {:induction false} TotalIsTally(g: Graph, origin: Id, matches: Entity -> bool, val: Entity -> real, ws: seq<Walk>)
    requires OrderAgrees(g.order, g.entities.Keys) && EndsStored(g, origin, ws)
    ensures Proper(ws)
    ensures Total(val, Picked(matches, Report(origin, All, ws))) == Tally(g, origin, matches, val, ws, g.order)
  {
    if ws == [] {
      assert Report(origin, All, ws) == [];
      TallyEmpty(g, origin, matches, val, ws, g.order);
    } else {
      var n := |ws| - 1;
      var w := ws[n];
      assert EndsStored(g, origin, ws[..n]);
      TotalIsTally(g, origin, matches, val, ws[..n]);
      TallySnoc(g, origin, matches, val, ws[..n], w, g.order);
      SplitLast(ws);
      TotalSnoc(matches, val, Report(origin, All, ws[..n]), FoundOf(origin, w));
    }
  }

  lemma TotalSnoc(matches: Entity -> bool, val: Entity -> real, r: seq<Found>, f: Found)
    ensures Total(val, Picked(matches, r + [f]))
         == Total(val, Picked(matches, r)) + if matches(f.entity) then val(f.entity) else 0.0
  {
    assert (r + [f])[..|r|] == r;
    var p := Picked(matches, r);
    assert Picked(matches, r + [f]) == p + if matches(f.entity) then [f] else [];
    assert (p + [f])[..|p|] == p && p + [] == p;
  }

  lemma {:induction false} CountIsPaths(origin: Id, ws: seq<Walk>, id: Id)
    requires Distinct(ws)
    ensures Count(origin, ws, id) == |set w | w in ws && End(origin, w) == id|
  {
    var s := set w | w in ws && End(origin, w) == id;
    if ws != [] {
      var n := |ws| - 1;
      var t := set w | w in ws[..n] && End(origin, w) == id;
      CountIsPaths(origin, ws[..n], id);
      SplitLast(ws);
      assert ws[n] !in ws[..n];
      if End(origin, ws[n]) == id {
        assert s == t + {ws[n]};
      } else {
        assert s == t;
      }
    }
  }

  lemma CountIsPathsTo(g: Graph, origin: Id, maxDepth: int, id: Id)
    requires Navigable(g) && Distinct(Enumerated(Outward(g), origin, maxDepth))
    ensures Count(origin, Enumerated(Outward(g), origin, maxDepth), id) == |PathsTo(g, origin, maxDepth, id)|
  {
    CountIsPaths(origin, Enumerated(Outward(g), origin, maxDepth), id);
  }

  lemma ShareIsPortion(g: Graph, origin: Id, maxDepth: int, matches: Entity -> bool, val: Entity -> real, id: Id)
    requires Navigable(g) && Distinct(Enumerated(Outward(g), origin, maxDepth))
    ensures Share(g, origin, matches, val, Enumerated(Outward(g), origin, maxDepth), id)
         == Portion(g, origin, maxDepth, matches, val, id)
  {
    CountIsPathsTo(g, origin, maxDepth, id);
  }

  lemma {:induction false} TallyIsWeighted(g: Graph, origin: Id, maxDepth: int, matches: Entity -> bool, val: Entity -> real, ids: seq<Id>)
    requires Navigable(g) && Distinct(Enumerated(Outward(g), origin, maxDepth))
    ensures Tally(g, origin, matches, val, Enumerated(Outward(g), origin, maxDepth), ids)
         == Weighted(g, origin, maxDepth, matches, val, ids)
  {
    if ids != [] {
      TallyIsWeighted(g, origin, maxDepth, matches, val, ids[..|ids| - 1]);
      ShareIsPortion(g, origin, maxDepth, matches, val, ids[|ids| - 1]);
    }
  }

  lemma NeighborStored(g: Graph, id: Id, h: Hop)
    requires WellFormed(g) && h in Neighbors(g, id, Out, None)
    ensures h.entity.id in g.entities && h.entity == g.entities[h.entity.id]
  {
    OutHopsMembers(g, Bucket(g.outgoing, id), None, h);
  }

  lemma LastHop(adj: Adjacency, s: Id, w: Walk)
    requires IsWalk(adj, s, w) && w != []
    ensures w[|w| - 1] in adj(End(s, w[..|w| - 1]))
  {}

  ghost predicate EndStored(g: Graph, origin: Id, w: Walk) {
    w != [] && End(origin, w) in g.entities && w[|w| - 1].entity == g.entities[End(origin, w)]
  }

  lemma AdmissibleStored(g: Graph, origin: Id, w: Walk)
    requires WellFormed(g) && IsWalk(Outward(g), origin, w) && w != []
    ensures EndStored(g, origin, w)
  {
    LastHop(Outward(g), origin, w);
    NeighborStored(g, End(origin, w[..|w| - 1]), w[|w| - 1]);
  }

  lemma EnumeratedStored(g: Graph, origin: Id, maxDepth: int, ws: seq<Walk>)
    requires WellFormed(g) && ws == Enumerated(Outward(g), origin, maxDepth)
    ensures EndsStored(g, origin, ws)
  {
    forall i | 0 <= i < |ws| ensures EndStored(g, origin, ws[i]) {
      EnumeratedIffAdmissible(Outward(g), origin, maxDepth, ws[i]);
      AdmissibleStored(g, origin, ws[i]);
    }
  }

  lemma OutwardDistinct(g: Graph)
    requires WellFormed(g) && IndexExact(g)
    ensures HopsDistinctEverywhere(Outward(g))
  {
    forall v ensures HopsDistinct(Outward(g)(v), v) { NeighborsDistinct(g, v, Out, None); }
  }

  /**
   * The attributed total: each matching entity counts its value once per admissible path,
   * so it is the plain sum exactly where every matching entity has one admissible path.
   */
  lemma TotalIsWeighted(g: Graph, origin: Id, maxDepth: int, matches: Entity -> bool, val: Entity -> real)
    requires WellFormed(g) && IndexExact(g)
    ensures var ws := Enumerated(Outward(g), origin, maxDepth);
            Proper(ws) && Total(val, Picked(matches, Report(origin, All, ws)))
                       == Weighted(g, origin, maxDepth, matches, val, g.order)
  {
    var ws: seq<Walk> := Enumerated(Outward(g), origin, maxDepth);
    EnumeratedStored(g, origin, maxDepth, ws);
    OutwardDistinct(g);
    EnumeratedOnceByLength(Outward(g), origin, maxDepth);
    TotalIsTally(g, origin, matches, val, ws);
    TallyIsWeighted(g, origin, maxDepth, matches, val, g.order);
  }

  // ------------------------------------------------------------------ distinct counts

  ghost function DownstreamIds(g: Graph, origin: Id, maxDepth: int, matches: Entity -> bool): set<Id>
    requires Navigable(g)
  {
    set id | id in g.entities && matches(g.entities[id]) && Downstream(g, origin, maxDepth, id)
  }

  lemma {:induction false} PickedMembers(origin: Id, matches: Entity -> bool, ws: seq<Walk>, f: Found)
    requires Proper(ws)
    ensures f in Picked(matches, Report(origin, All, ws)) <==>
            matches(f.entity) && exists w :: w in ws && w != [] && f == FoundOf(origin, w)
  {
    if ws != [] {
      var n := |ws| - 1;
      assert Proper(ws[..n]);
      PickedMembers(origin, matches, ws[..n], f);
      SplitLast(ws);
      var r := Report(origin, All, ws[..n]);
      assert (r + [FoundOf(origin, ws[n])])[..|r|] == r;
    }
  }

  lemma PickedIsDownstream(g: Graph, origin: Id, maxDepth: int, matches: Entity -> bool, ws: seq<Walk>, f: Found)
    requires WellFormed(g) && ws == Enumerated(Outward(g), origin, maxDepth) && Proper(ws)
    requires f in Picked(matches, Report(origin, All, ws))
    ensures f.entity.id in DownstreamIds(g, origin, maxDepth, matches)
  {
    PickedMembers(origin, matches, ws, f);
    var w :| w in ws && w != [] && f == FoundOf(origin, w);
    AdmissibleEnd(g, origin, maxDepth, ws, w);
  }

  lemma DownstreamIsPicked(g: Graph, origin: Id, maxDepth: int, matches: Entity -> bool, ws: seq<Walk>, id: Id)
    requires WellFormed(g) && ws == Enumerated(Outward(g), origin, maxDepth) && Proper(ws)
    requires id in DownstreamIds(g, origin, maxDepth, matches)
    ensures exists f :: f in Picked(matches, Report(origin, All, ws)) && f.entity.id == id
  {
    var d: nat :| IsDistance(Outward(g), origin, id, d) && 1 <= d <= maxDepth;
    var w := ReachedAtDistance(Outward(g), origin, maxDepth, id, d);
    AdmissibleEnd(g, origin, maxDepth, ws, w);
    PickedMembers(origin, matches, ws, FoundOf(origin, w));
  }

  /** The distinct matching entities among the reported paths are exactly those within reach. */
  lemma IdsAreDownstream(g: Graph, origin: Id, maxDepth: int, matches: Entity -> bool)
    requires WellFormed(g)
    ensures var ws := Enumerated(Outward(g), origin, maxDepth);
            Proper(ws) && Ids(Picked(matches, Report(origin, All, ws))) == DownstreamIds(g, origin, maxDepth, matches)
  {
    var ws := Enumerated(Outward(g), origin, maxDepth);
    EnumeratedStored(g, origin, maxDepth, ws);
    assert Proper(ws);
    forall f | f in Picked(matches, Report(origin, All, ws))
      ensures f.entity.id in DownstreamIds(g, origin, maxDepth, matches)
    {
      PickedIsDownstream(g, origin, maxDepth, matches, ws, f);
    }
    forall id | id in DownstreamIds(g, origin, maxDepth, matches)
      ensures exists f :: f in Picked(matches, Report(origin, All, ws)) && f.entity.id == id
    {
      DownstreamIsPicked(g, origin, maxDepth, matches, ws, id);
    }
  }

  lemma SimpleLeaves(s: Id, w: Walk)
    requires Simple(s, w) && w != []
    ensures End(s, w) != s
  {
    assert Visited(s, w)[0] == s && Visited(s, w)[|w|] == End(s, w);
  }

  lemma AdmissibleDownstream(g: Graph, origin: Id, maxDepth: int, w: Walk)
    requires Navigable(g) && Admissible(Outward(g), origin, maxDepth, w)
    ensures Downstream(g, origin, maxDepth, End(origin, w))
  {
    SimpleLeaves(origin, w);
    var u := ShortestExists(Outward(g), origin, End(origin, w), w);
    assert |u| >= 1;
  }

  lemma AdmissibleEnd(g: Graph, origin: Id, maxDepth: int, ws: seq<Walk>, w: Walk)
    requires WellFormed(g) && ws == Enumerated(Outward(g), origin, maxDepth) && w in ws
    ensures EndStored(g, origin, w) && Downstream(g, origin, maxDepth, End(origin, w))
  {
    EnumeratedIffAdmissible(Outward(g), origin, maxDepth, w);
    AdmissibleDownstream(g, origin, maxDepth, w);
    AdmissibleStored(g, origin, w);
  }

  // ------------------------------------------------------------------ when the total is a plain sum

  /** An entity has an admissible path exactly when it lies downstream within the depth. */
  lemma PathsToIffDownstream(g: Graph, origin: Id, maxDepth: int, id: Id)
    requires Navigable(g)
    ensures PathsTo(g, origin, maxDepth, id) != {} <==> Downstream(g, origin, maxDepth, id)
  {
    if w :| w in PathsTo(g, origin, maxDepth, id) {
      PathsToIffAdmissible(g, origin, maxDepth, id, w);
      AdmissibleDownstream(g, origin, maxDepth, w);
    }
    if Downstream(g, origin, maxDepth, id) {
      var d: nat :| IsDistance(Outward(g), origin, id, d) && 1 <= d <= maxDepth;
      var w := ReachedAtDistance(Outward(g), origin, maxDepth, id, d);
      assert w in PathsTo(g, origin, maxDepth, id);
    }
  }

  /** What an entity contributes if it is counted once. */
  ghost function Once(g: Graph, origin: Id, maxDepth: int, matches: Entity -> bool, val: Entity -> real, id: Id): real
    requires Navigable(g)
  {
    if id in DownstreamIds(g, origin, maxDepth, matches) then val(g.entities[id]) else 0.0
  }

  ghost function PlainSum(g: Graph, origin: Id, maxDepth: int, matches: Entity -> bool, val: Entity -> real, ids: seq<Id>): real
    requires Navigable(g)
  {
    if ids == [] then 0.0
    else
      PlainSum(g, origin, maxDepth, matches, val, ids[..|ids| - 1])
      + Once(g, origin, maxDepth, matches, val, ids[|ids| - 1])
  }

  lemma Compare(x: real, n: nat, p: real, o: real)
    requires p == Weighed(x, n) && o == if n >= 1 then x else 0.0
    ensures n <= 1 || x == 0.0 ==> p == o
    ensures x > 0.0 && n > 1 ==> p > o
  {
    if n > 1 {
      var more := (n - 1) as real;
      assert p == x + x * more;
      assert x > 0.0 ==> x * more > 0.0;
    }
  }

  /** The entity counts for nothing, or it has exactly one admissible path. */
  ghost predicate CountedOnce(g: Graph, origin: Id, maxDepth: int, matches: Entity -> bool, val: Entity -> real, id: Id)
    requires Navigable(g)
  {
    id in DownstreamIds(g, origin, maxDepth, matches) && val(g.entities[id]) != 0.0 ==>
      |PathsTo(g, origin, maxDepth, id)| == 1
  }

  lemma PortionIff(g: Graph, origin: Id, maxDepth: int, matches: Entity -> bool, val: Entity -> real, id: Id)
    requires Navigable(g)
    ensures var p, o := Portion(g, origin, maxDepth, matches, val, id), Once(g, origin, maxDepth, matches, val, id);
            && (CountedOnce(g, origin, maxDepth, matches, val, id) ==> p == o)
            && ((Matches(g, matches, id) && val(g.entities[id]) < 0.0)
                || (p >= o && (p == o ==> CountedOnce(g, origin, maxDepth, matches, val, id))))
  {
    PathCount(g, origin, maxDepth, id);
    var p, o := Portion(g, origin, maxDepth, matches, val, id), Once(g, origin, maxDepth, matches, val, id);
    if Matches(g, matches, id) {
      Compare(val(g.entities[id]), |PathsTo(g, origin, maxDepth, id)|, p, o);
    } else {
      assert p == o;
    }
  }

  lemma PathCount(g: Graph, origin: Id, maxDepth: int, id: Id)
    requires Navigable(g)
    ensures |PathsTo(g, origin, maxDepth, id)| >= 1 <==> Downstream(g, origin, maxDepth, id)
  {
    PathsToIffDownstream(g, origin, maxDepth, id);
    var paths := PathsTo(g, origin, maxDepth, id);
    assert paths != {} <==> |paths| >= 1;
  }

  lemma {:induction false} WeightedIff(g: Graph, origin: Id, maxDepth: int, matches: Entity -> bool, val: Entity -> real,
                                       ids: seq<Id>)
    requires Navigable(g)
    ensures var w, p := Weighted(g, origin, maxDepth, matches, val, ids), PlainSum(g, origin, maxDepth, matches, val, ids);
            && ((forall id :: id in ids ==> CountedOnce(g, origin, maxDepth, matches, val, id)) ==> w == p)
            && ((forall id :: id in ids && Matches(g, matches, id) ==> val(g.entities[id]) >= 0.0) ==>
                  w >= p && (w == p ==> forall id :: id in ids ==> CountedOnce(g, origin, maxDepth, matches, val, id)))
  {
    if ids != [] {
      SplitLast(ids);
      WeightedIff(g, origin, maxDepth, matches, val, ids[..|ids| - 1]);
      PortionIff(g, origin, maxDepth, matches, val, ids[|ids| - 1]);
    }
  }

  /**
   * Whatever the values, one admissible path to each matching entity that counts for something makes the total
   * the plain sum. Where no value is negative the total is at least that, and equal only then.
   */
  lemma PlainSumIff(g: Graph, origin: Id, maxDepth: int, matches: Entity -> bool, val: Entity -> real)
    requires WellFormed(g) && IndexExact(g)
    ensures var ws := Enumerated(Outward(g), origin, maxDepth);
            Proper(ws)
            && var total := Total(val, Picked(matches, Report(origin, All, ws)));
               var plain := PlainSum(g, origin, maxDepth, matches, val, g.order);
               var once := forall id :: id in g.order ==> CountedOnce(g, origin, maxDepth, matches, val, id);
               && (once ==> total == plain)
               && ((forall id :: Matches(g, matches, id) ==> val(g.entities[id]) >= 0.0) ==>
                     total >= plain && (total == plain <==> once))
  {
    TotalIsWeighted(g, origin, maxDepth, matches, val);
    WeightedIff(g, origin, maxDepth, matches, val, g.order);
  }

  // ------------------------------------------------------------------ the reports

  const GENERATOR := "IdeaGenerator"
  const PRODUCT := "Product"
  const OBSERVATION := "Observation"
  const FAILURE := "Failure"
  const PROCESS := "Process"

  predicate OfMetric(metric: string, e: Entity) {
    e.typ == OBSERVATION && "metric" in e.data && e.data["metric"] == Str(metric)
  }

  /** `Number(data.value ?? 0)`, with JavaScript's number conversion as a parameter. */
  function ValueOf(number: Value -> real, e: Entity): real {
    if "value" in e.data && !e.data["value"].Undefined? && !e.data["value"].Null? then number(e.data["value"]) else 0.0
  }

  function OnMetric(metric: string): Entity -> bool { e => OfMetric(metric, e) }
  function HasType(typ: string): Entity -> bool { (e: Entity) => e.typ == typ }
  function Valued(number: Value -> real): Entity -> real { e => ValueOf(number, e) }

  function Field(e: Entity, key: string): Value { if key in e.fields then e.fields[key] else Undefined }
  function Datum(e: Entity, key: string): Value { if key in e.data then e.data[key] else Undefined }

  /** Value times admissible paths, summed over every stored observation of the metric. */
  ghost function MetricTotal(g: Graph, origin: Id, maxDepth: int, metric: string, number: Value -> real): real
    requires Navigable(g)
  {
    Weighted(g, origin, maxDepth, OnMetric(metric), Valued(number), g.order)
  }

  ghost function CountDownstream(g: Graph, origin: Id, maxDepth: int, matches: Entity -> bool): nat
    requires Navigable(g)
  {
    |DownstreamIds(g, origin, maxDepth, matches)|
  }

  datatype UsageRow = UsageRow(id: Id, name: Value, metric: string, total: real, observations: nat)
  datatype ProductRow = ProductRow(id: Id, name: Value, metric: string, total: real)
  datatype ProcessRow = ProcessRow(id: Id, name: Value, stage: Value, version: Value, metric: string,
                                   total: real, observations: nat, products: nat, failures: nat)

  ghost function UsageRowOf(g: Graph, e: Entity, metric: string, maxDepth: int, number: Value -> real): UsageRow
    requires Navigable(g)
  {
    UsageRow(e.id, Field(e, "name"), metric,
             MetricTotal(g, e.id, maxDepth, metric, number),
             CountDownstream(g, e.id, maxDepth, OnMetric(metric)))
  }

  ghost function ProductRowOf(g: Graph, e: Entity, metric: string, number: Value -> real): ProductRow
    requires Navigable(g)
  {
    ProductRow(e.id, Field(e, "name"), metric, MetricTotal(g, e.id, 10, metric, number))
  }

  ghost function ProcessRowOf(g: Graph, e: Entity, metric: string, maxDepth: int, number: Value -> real): ProcessRow
    requires Navigable(g)
  {
    ProcessRow(e.id, Field(e, "name"), Datum(e, "stage"), Datum(e, "version"), metric,
               MetricTotal(g, e.id, maxDepth, metric, number),
               CountDownstream(g, e.id, maxDepth, OnMetric(metric)),
               CountDownstream(g, e.id, maxDepth, HasType(PRODUCT)),
               CountDownstream(g, e.id, maxDepth, HasType(FAILURE)))
  }

  predicate UsageBefore(a: UsageRow, b: UsageRow) { a.total >= b.total }
  predicate ProductBefore(a: ProductRow, b: ProductRow) { a.total >= b.total }
  predicate ProcessBefore(a: ProcessRow, b: ProcessRow) {
    a.total > b.total || (a.total == b.total && a.failures <= b.failures)
  }

  /**
   * The rows come out by descending total, processes of equal total by ascending failures, and no row is added or
   * lost.
   */
  lemma ReportsSorted(usage: seq<UsageRow>, products: seq<ProductRow>, processes: seq<ProcessRow>)
    ensures var r := Sort(UsageBefore, usage);
            multiset(r) == multiset(usage) && forall i, j :: 0 <= i < j < |r| ==> r[i].total >= r[j].total
    ensures var r := Sort(ProductBefore, products);
            multiset(r) == multiset(products) && forall i, j :: 0 <= i < j < |r| ==> r[i].total >= r[j].total
    ensures var r := Sort(ProcessBefore, processes);
            multiset(r) == multiset(processes)
            && forall i, j :: 0 <= i < j < |r| ==>
                 r[i].total >= r[j].total && (r[i].total == r[j].total ==> r[i].failures <= r[j].failures)
  {
    SortSorted(UsageBefore, usage);
    SortBag(UsageBefore, usage);
    SortSorted(ProductBefore, products);
    SortBag(ProductBefore, products);
    SortSorted(ProcessBefore, processes);
    SortBag(ProcessBefore, processes);
    UsageDescends(Sort(UsageBefore, usage));
    ProductsDescend(Sort(ProductBefore, products));
    ProcessesDescend(Sort(ProcessBefore, processes));
  }

  lemma UsageDescends(r: seq<UsageRow>)
    requires SortedBy(UsageBefore, r)
    ensures forall i, j :: 0 <= i < j < |r| ==> r[i].total >= r[j].total
  {
    forall i, j | 0 <= i < j < |r| ensures r[i].total >= r[j].total { assert UsageBefore(r[i], r[j]); }
  }

  lemma ProductsDescend(r: seq<ProductRow>)
    requires SortedBy(ProductBefore, r)
    ensures forall i, j :: 0 <= i < j < |r| ==> r[i].total >= r[j].total
  {
    forall i, j | 0 <= i < j < |r| ensures r[i].total >= r[j].total { assert ProductBefore(r[i], r[j]); }
  }

  lemma ProcessesDescend(r: seq<ProcessRow>)
    requires SortedBy(ProcessBefore, r)
    ensures forall i, j :: 0 <= i < j < |r| ==>
              r[i].total >= r[j].total && (r[i].total == r[j].total ==> r[i].failures <= r[j].failures)
  {
    forall i, j | 0 <= i < j < |r|
      ensures r[i].total >= r[j].total && (r[i].total == r[j].total ==> r[i].failures <= r[j].failures)
    {
      assert ProcessBefore(r[i], r[j]);
    }
  }

  function InStage(stage: Option<Value>, es: seq<Entity>): seq<Entity> {
    if es == [] then []
    else
      var e := es[|es| - 1];
      InStage(stage, es[..|es| - 1]) + if stage.None? || Datum(e, "stage") == stage.value then [e] else []
  }

  /** The ranked processes are those of the stage, each as often as it is stored; all of them if no stage is asked for. */
  lemma {:induction false} InStageAre(stage: Option<Value>, es: seq<Entity>, e: Entity)
    requires stage.Some? ==> !stage.value.Undefined?
    ensures multiset(InStage(stage, es))[e]
         == if stage.None? || ("stage" in e.data && e.data["stage"] == stage.value) then multiset(es)[e] else 0
  {
    if es != [] {
      SplitLast(es);
      InStageAre(stage, es[..|es| - 1], e);
    }
  }

  /** What is counted for a metric, and for what: stored observations of the metric within reach, at their value. */
  lemma ObservationsCounted(g: Graph, origin: Id, maxDepth: int, metric: string, number: Value -> real, id: Id)
    requires Navigable(g)
    ensures id in DownstreamIds(g, origin, maxDepth, OnMetric(metric)) <==>
              id in g.entities && g.entities[id].typ == "Observation" && "metric" in g.entities[id].data
              && g.entities[id].data["metric"] == Str(metric) && Downstream(g, origin, maxDepth, id)
    ensures id in DownstreamIds(g, origin, maxDepth, OnMetric(metric)) ==>
              var data := g.entities[id].data;
              Valued(number)(g.entities[id])
              == if "value" !in data || data["value"] in {Undefined, Null} then 0.0 else number(data["value"])
  {}

  /** A row per generator, per product and per process: exactly the stored entities of these types are reported on. */
  lemma SubjectsAre(g: Graph, e: Entity)
    requires WellFormed(g)
    ensures e in OfType(g, g.order, Some(GENERATOR)) <==> e.id in g.entities && g.entities[e.id] == e && e.typ == "IdeaGenerator"
    ensures e in OfType(g, g.order, Some(PRODUCT)) <==> e.id in g.entities && g.entities[e.id] == e && e.typ == "Product"
    ensures e in OfType(g, g.order, Some(PROCESS)) <==> e.id in g.entities && g.entities[e.id] == e && e.typ == "Process"
  {
    OfTypeMembers(g, g.order, GENERATOR, e);
    OfTypeMembers(g, g.order, PRODUCT, e);
    OfTypeMembers(g, g.order, PROCESS, e);
  }

  /** A process row counts stored products and stored failures within reach, each once. */
  lemma OutcomesCounted(g: Graph, e: Entity, metric: string, maxDepth: int, number: Value -> real)
    requires Navigable(g)
    ensures var r := ProcessRowOf(g, e, metric, maxDepth, number);
            && r.products == |set id | id in g.entities && g.entities[id].typ == "Product" && Downstream(g, e.id, maxDepth, id)|
            && r.failures == |set id | id in g.entities && g.entities[id].typ == "Failure" && Downstream(g, e.id, maxDepth, id)|
  {
    assert DownstreamIds(g, e.id, maxDepth, HasType(PRODUCT))
        == set id | id in g.entities && g.entities[id].typ == "Product" && Downstream(g, e.id, maxDepth, id);
    assert DownstreamIds(g, e.id, maxDepth, HasType(FAILURE))
        == set id | id in g.entities && g.entities[id].typ == "Failure" && Downstream(g, e.id, maxDepth, id);
  }

  class Analytics {
    const graph: InMemoryGraphStore

    constructor (graph: InMemoryGraphStore)
      ensures this.graph == graph
    {
      this.graph := graph;
    }

    method Downstreams(origin: Id, maxDepth: int) returns (found: seq<Found>)
      requires graph.Valid() && IndexExact(graph.View())
      ensures var g: Graph := graph.View();
              forall matches: Entity -> bool, val: Entity -> real ::
                Total(val, Picked(matches, found)) == Weighted(g, origin, maxDepth, matches, val, g.order)
      ensures var g: Graph := graph.View();
              forall matches: Entity -> bool ::
                Ids(Picked(matches, found)) == DownstreamIds(g, origin, maxDepth, matches)
    {
      found := graph.FindPaths(origin, Out, None, maxDepth, All);
      ghost var g := graph.View();
      forall matches: Entity -> bool, val: Entity -> real
        ensures Total(val, Picked(matches, found)) == Weighted(g, origin, maxDepth, matches, val, g.order)
      {
        TotalIsWeighted(g, origin, maxDepth, matches, val);
      }
      forall matches: Entity -> bool
        ensures Ids(Picked(matches, found)) == DownstreamIds(g, origin, maxDepth, matches)
      {
        IdsAreDownstream(g, origin, maxDepth, matches);
      }
    }

    /** One row per generator, by descending total. */
    method UsageAttribution(metric: string, maxDepth: int, number: Value -> real) returns (rows: seq<UsageRow>)
      requires graph.Valid() && IndexExact(graph.View())
      ensures var g := graph.View();
              var subjects := OfType(g, g.order, Some(GENERATOR));
              rows == Sort(UsageBefore, seq(|subjects|, i requires 0 <= i < |subjects| => UsageRowOf(g, subjects[i], metric, maxDepth, number)))
    {
      ghost var g := graph.View();
      var subjects: seq<Entity> := graph.FindEntities(Some(GENERATOR));
      var list: seq<UsageRow> := [];
      for i := 0 to |subjects|
        invariant |list| == i
        invariant forall j :: 0 <= j < i ==> list[j] == UsageRowOf(g, subjects[j], metric, maxDepth, number)
      {
        var subject := subjects[i];
        var paths := Downstreams(subject.id, maxDepth);
        var observations := Picked(OnMetric(metric), paths);
        var total := Total(Valued(number), observations);
        list := list + [UsageRow(subject.id, Field(subject, "name"), metric, total, |Ids(observations)|)];
      }
      rows := Sort(UsageBefore, list);
      assert list == seq(|subjects|, i requires 0 <= i < |subjects| => UsageRowOf(g, subjects[i], metric, maxDepth, number));
    }

    /** One row per product, by descending total within ten hops. */
    method BestProducts(metric: string, number: Value -> real) returns (rows: seq<ProductRow>)
      requires graph.Valid() && IndexExact(graph.View())
      ensures var g := graph.View();
              var subjects := OfType(g, g.order, Some(PRODUCT));
              rows == Sort(ProductBefore, seq(|subjects|, i requires 0 <= i < |subjects| => ProductRowOf(g, subjects[i], metric, number)))
    {
      ghost var g := graph.View();
      var subjects: seq<Entity> := graph.FindEntities(Some(PRODUCT));
      var list: seq<ProductRow> := [];
      for i := 0 to |subjects|
        invariant |list| == i
        invariant forall j :: 0 <= j < i ==> list[j] == ProductRowOf(g, subjects[j], metric, number)
      {
        var subject := subjects[i];
        var paths := Downstreams(subject.id, 10);
        var observations := Picked(OnMetric(metric), paths);
        var total := Total(Valued(number), observations);
        list := list + [ProductRow(subject.id, Field(subject, "name"), metric, total)];
      }
      rows := Sort(ProductBefore, list);
      assert list == seq(|subjects|, i requires 0 <= i < |subjects| => ProductRowOf(g, subjects[i], metric, number));
    }

    /** One row per process of the stage, by descending total and then ascending failures. */
    method RankProcesses(stage: Option<Value>, metric: string, maxDepth: int, number: Value -> real)
      returns (rows: seq<ProcessRow>)
      requires graph.Valid() && IndexExact(graph.View())
      ensures var g := graph.View();
              var subjects := InStage(stage, OfType(g, g.order, Some(PROCESS)));
              rows == Sort(ProcessBefore, seq(|subjects|, i requires 0 <= i < |subjects| =>
                                                ProcessRowOf(g, subjects[i], metric, maxDepth, number)))
    {
      ghost var g := graph.View();
      var processes: seq<Entity> := graph.FindEntities(Some(PROCESS));
      var subjects := InStage(stage, processes);
      var list: seq<ProcessRow> := [];
      for i := 0 to |subjects|
        invariant |list| == i
        invariant forall j :: 0 <= j < i ==> list[j] == ProcessRowOf(g, subjects[j], metric, maxDepth, number)
      {
        var subject := subjects[i];
        var paths := Downstreams(subject.id, maxDepth);
        var observations := Picked(OnMetric(metric), paths);
        var failures := Picked(HasType(FAILURE), paths);
        var products := Picked(HasType(PRODUCT), paths);
        var total := Total(Valued(number), observations);
        list := list + [ProcessRow(subject.id, Field(subject, "name"), Datum(subject, "stage"), Datum(subject, "version"),
                                   metric, total, |Ids(observations)|, |Ids(products)|, |Ids(failures)|)];
      }
      rows := Sort(ProcessBefore, list);
      assert list == seq(|subjects|, i requires 0 <= i < |subjects| =>
                           ProcessRowOf(g, subjects[i], metric, maxDepth, number));
    }
  }
}
