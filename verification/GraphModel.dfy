/**
 * The lineage graph as a value: the four maps of `InMemoryGraphStore` and the pure
 * meaning of its operations.  JavaScript Maps and Sets keep insertion order, so the
 * entity map carries its key order and an index bucket is a duplicate-free sequence.
 */
module GraphModel {
  import opened Values

  type Id = string

  const US: char := '\U{1F}'

  /** `fields` holds every top-level property except id, type and data (for instance the name). */
  datatype Entity = Entity(id: Id, typ: string, fields: map<string, Value>, data: map<string, Value>)
  datatype Edge = Edge(src: Id, kind: string, dst: Id, props: map<string, Value>)
  datatype Hop = Hop(edge: Edge, entity: Entity)
  datatype Direction = Out | In | Both

  datatype Graph = Graph(
    entities: map<Id, Entity>,
    order: seq<Id>,
    edges: map<string, Edge>,
    outgoing: map<Id, seq<string>>,
    incoming: map<Id, seq<string>>)

  const EMPTY: Graph := Graph(map[], [], map[], map[], map[])

  /** The edge map's key: source, kind and target joined by the unit separator. */
  function Key(src: Id, kind: string, dst: Id): string {
    src + [US] + kind + [US] + dst
  }

  function Bucket(index: map<Id, seq<string>>, id: Id): seq<string> {
    if id in index then index[id] else []
  }

  function AddIndex(index: map<Id, seq<string>>, id: Id, key: string): map<Id, seq<string>> {
    var bucket := Bucket(index, id);
    index[id := if key in bucket then bucket else bucket + [key]]
  }

  function Merged(g: Graph, e: Entity): Entity {
    if e.id in g.entities then
      var p := g.entities[e.id];
      Entity(e.id, e.typ, p.fields + e.fields, p.data + e.data)
    else e
  }

  /** An entity without id or type is refused. */
  predicate Storable(e: Entity) { e.id != "" && e.typ != "" }

  function Upsert(g: Graph, e: Entity): Graph {
    g.(entities := g.entities[e.id := Merged(g, e)],
       order := if e.id in g.entities then g.order else g.order + [e.id])
  }

  predicate Linkable(g: Graph, src: Id, dst: Id) { src in g.entities && dst in g.entities }

  function Link(g: Graph, src: Id, kind: string, dst: Id, props: map<string, Value>): Graph {
    var key := Key(src, kind, dst);
    g.(edges := g.edges[key := Edge(src, kind, dst, props)],
       outgoing := AddIndex(g.outgoing, src, key),
       incoming := AddIndex(g.incoming, dst, key))
  }

  predicate Allowed(kinds: Option<set<string>>, kind: string) {
    kinds.None? || kind in kinds.value
  }

  ghost predicate Resolves(g: Graph, keys: seq<string>) {
    forall i :: 0 <= i < |keys| ==>
      (keys[i] in g.edges && g.edges[keys[i]].src in g.entities && g.edges[keys[i]].dst in g.entities)
  }

  /** Every index key resolves to an edge with stored endpoints: all that reading the graph needs. */
  ghost predicate Navigable(g: Graph) {
    forall id :: Resolves(g, Bucket(g.outgoing, id)) && Resolves(g, Bucket(g.incoming, id))
  }

  ghost predicate OrderAgrees(order: seq<Id>, ids: set<Id>) {
    NoRepeats(order) && forall id :: id in order <==> id in ids
  }

  ghost predicate EntitiesStorable(entities: map<Id, Entity>) {
    forall id :: id in entities ==> entities[id].id == id && Storable(entities[id])
  }

  ghost predicate EdgesStored(g: Graph) {
    forall k :: k in g.edges ==>
      (Key(g.edges[k].src, g.edges[k].kind, g.edges[k].dst) == k
       && g.edges[k].src in g.entities && g.edges[k].dst in g.entities)
  }

  ghost predicate BucketsAreSets(index: map<Id, seq<string>>) {
    forall id :: NoRepeats(Bucket(index, id))
  }

  /** What always holds: stored endpoints, index keys that resolve, no duplicates. */
  ghost predicate WellFormed(g: Graph) {
    && OrderAgrees(g.order, g.entities.Keys)
    && EntitiesStorable(g.entities)
    && EdgesStored(g)
    && BucketsAreSets(g.outgoing) && BucketsAreSets(g.incoming)
    && Navigable(g)
  }

  datatype Side = Source | Target

  function EndOf(e: Edge, side: Side): Id { if side.Source? then e.src else e.dst }

  /** A bucket holds exactly the keys of the edges with that id on the given side. */
  ghost predicate SideExact(index: map<Id, seq<string>>, edges: map<string, Edge>, side: Side) {
    forall id, k :: k in Bucket(index, id) <==> k in edges && EndOf(edges[k], side) == id
  }

  /** The indexes hold exactly the keys of the edges that leave, or enter, an id. */
  ghost predicate IndexExact(g: Graph) {
    SideExact(g.outgoing, g.edges, Source) && SideExact(g.incoming, g.edges, Target)
  }

  function OutHops(g: Graph, keys: seq<string>, kinds: Option<set<string>>): (r: seq<Hop>)
    requires Resolves(g, keys)
  {
    if keys == [] then []
    else
      var e := g.edges[keys[|keys| - 1]];
      OutHops(g, keys[..|keys| - 1], kinds)
      + if Allowed(kinds, e.kind) then [Hop(e, g.entities[e.dst])] else []
  }

  function InHops(g: Graph, keys: seq<string>, kinds: Option<set<string>>): (r: seq<Hop>)
    requires Resolves(g, keys)
  {
    if keys == [] then []
    else
      var e := g.edges[keys[|keys| - 1]];
      InHops(g, keys[..|keys| - 1], kinds)
      + if Allowed(kinds, e.kind) then [Hop(e, g.entities[e.src])] else []
  }

  ghost function Neighbors(g: Graph, id: Id, dir: Direction, kinds: Option<set<string>>): seq<Hop>
    requires Navigable(g)
  {
    (if dir.In? then [] else OutHops(g, Bucket(g.outgoing, id), kinds))
    + (if dir.Out? then [] else InHops(g, Bucket(g.incoming, id), kinds))
  }

  lemma OutHopsSnoc(g: Graph, keys: seq<string>, kinds: Option<set<string>>, i: nat)
    requires Resolves(g, keys) && i < |keys|
    ensures var e := g.edges[keys[i]];
            OutHops(g, keys[..i + 1], kinds)
            == OutHops(g, keys[..i], kinds) + if Allowed(kinds, e.kind) then [Hop(e, g.entities[e.dst])] else []
  {
    assert keys[..i + 1][..i] == keys[..i];
  }

  lemma InHopsSnoc(g: Graph, keys: seq<string>, kinds: Option<set<string>>, i: nat)
    requires Resolves(g, keys) && i < |keys|
    ensures var e := g.edges[keys[i]];
            InHops(g, keys[..i + 1], kinds)
            == InHops(g, keys[..i], kinds) + if Allowed(kinds, e.kind) then [Hop(e, g.entities[e.src])] else []
  {
    assert keys[..i + 1][..i] == keys[..i];
  }

  // ---------------------------------------------------------------- preservation

  lemma EmptyWellFormed()
    ensures WellFormed(EMPTY) && IndexExact(EMPTY)
  {}

  lemma OrderSnoc(order: seq<Id>, ids: set<Id>, id: Id)
    requires OrderAgrees(order, ids)
    ensures OrderAgrees(if id in ids then order else order + [id], ids + {id})
  {
    NoRepeatsSnoc(order, id);
    assert id in ids ==> ids + {id} == ids;
  }

  lemma UpsertNavigable(g: Graph, e: Entity)
    requires Navigable(g)
    ensures Navigable(Upsert(g, e))
  {
    var h := Upsert(g, e);
    forall id
      ensures Resolves(h, Bucket(h.outgoing, id)) && Resolves(h, Bucket(h.incoming, id))
    {
      assert Resolves(g, Bucket(g.outgoing, id)) && Resolves(g, Bucket(g.incoming, id));
    }
  }

  lemma UpsertEntities(g: Graph, e: Entity)
    requires EntitiesStorable(g.entities) && EdgesStored(g) && Storable(e)
    ensures EntitiesStorable(Upsert(g, e).entities) && EdgesStored(Upsert(g, e))
  {}

  lemma UpsertWellFormed(g: Graph, e: Entity)
    requires WellFormed(g) && Storable(e)
    ensures WellFormed(Upsert(g, e))
  {
    OrderSnoc(g.order, g.entities.Keys, e.id);
    assert Upsert(g, e).entities.Keys == g.entities.Keys + {e.id};
    UpsertNavigable(g, e);
    UpsertEntities(g, e);
  }

  lemma UpsertKeepsIndex(g: Graph, e: Entity)
    ensures IndexExact(Upsert(g, e)) <==> IndexExact(g)
  {}

  lemma AddIndexBucket(index: map<Id, seq<string>>, id: Id, key: string, other: Id)
    ensures Bucket(AddIndex(index, id, key), other)
         == if other != id || key in Bucket(index, id) then Bucket(index, other)
            else Bucket(index, id) + [key]
  {}

  lemma AddIndexIsSet(index: map<Id, seq<string>>, id: Id, key: string)
    requires BucketsAreSets(index)
    ensures BucketsAreSets(AddIndex(index, id, key))
  {
    forall other ensures NoRepeats(Bucket(AddIndex(index, id, key), other)) {
      AddIndexBucket(index, id, key, other);
      NoRepeatsSnoc(Bucket(index, id), key);
      assert NoRepeats(Bucket(index, other)) && NoRepeats(Bucket(index, id));
    }
  }

  lemma LinkResolves(g: Graph, src: Id, kind: string, dst: Id, props: map<string, Value>, keys: seq<string>)
    requires Resolves(g, keys) && Linkable(g, src, dst)
    ensures Resolves(Link(g, src, kind, dst, props), keys)
    ensures Resolves(Link(g, src, kind, dst, props), keys + [Key(src, kind, dst)])
  {}

  lemma LinkNavigable(g: Graph, src: Id, kind: string, dst: Id, props: map<string, Value>)
    requires Navigable(g) && Linkable(g, src, dst)
    ensures Navigable(Link(g, src, kind, dst, props))
  {
    var h, key := Link(g, src, kind, dst, props), Key(src, kind, dst);
    forall id
      ensures Resolves(h, Bucket(h.outgoing, id)) && Resolves(h, Bucket(h.incoming, id))
    {
      AddIndexBucket(g.outgoing, src, key, id);
      AddIndexBucket(g.incoming, dst, key, id);
      LinkResolves(g, src, kind, dst, props, Bucket(g.outgoing, id));
      LinkResolves(g, src, kind, dst, props, Bucket(g.incoming, id));
    }
  }

  lemma LinkWellFormed(g: Graph, src: Id, kind: string, dst: Id, props: map<string, Value>)
    requires WellFormed(g) && Linkable(g, src, dst)
    ensures WellFormed(Link(g, src, kind, dst, props))
  {
    AddIndexIsSet(g.outgoing, src, Key(src, kind, dst));
    AddIndexIsSet(g.incoming, dst, Key(src, kind, dst));
    LinkNavigable(g, src, kind, dst, props);
  }

  /** Two different edges under one key: possible only when an id contains the separator. */
  predicate KeyClash(g: Graph, src: Id, kind: string, dst: Id) {
    var key := Key(src, kind, dst);
    key in g.edges && (g.edges[key].src != src || g.edges[key].dst != dst)
  }

  lemma AddIndexSideExact(index: map<Id, seq<string>>, edges: map<string, Edge>, side: Side, key: string, e: Edge)
    requires SideExact(index, edges, side)
    ensures SideExact(AddIndex(index, EndOf(e, side), key), edges[key := e], side)
       <==> (key in edges ==> EndOf(edges[key], side) == EndOf(e, side))
  {
    var at := EndOf(e, side);
    var index', edges' := AddIndex(index, at, key), edges[key := e];
    if key in edges && EndOf(edges[key], side) != at {
      var was := EndOf(edges[key], side);
      AddIndexBucket(index, at, key, was);
      assert key in Bucket(index', was) && EndOf(edges'[key], side) != was;
    } else {
      forall id, k
        ensures k in Bucket(index', id) <==> k in edges' && EndOf(edges'[k], side) == id
      {
        AddIndexBucket(index, at, key, id);
      }
    }
  }

  /** `link` keeps the indexes exact precisely when it does not overwrite another edge's key. */
  lemma LinkKeepsIndexExact(g: Graph, src: Id, kind: string, dst: Id, props: map<string, Value>)
    requires IndexExact(g)
    ensures IndexExact(Link(g, src, kind, dst, props)) <==> !KeyClash(g, src, kind, dst)
  {
    var key, e := Key(src, kind, dst), Edge(src, kind, dst, props);
    AddIndexSideExact(g.outgoing, g.edges, Source, key, e);
    AddIndexSideExact(g.incoming, g.edges, Target, key, e);
  }

  // ---------------------------------------------------------------- separator-free ids

  predicate Clean(s: string) { US !in s }

  lemma SeparatorSplits(a: string, b: string, x: string, y: string)
    requires Clean(a) && Clean(b) && a + [US] + x == b + [US] + y
    ensures a == b && x == y
  {
    var l, r := a + [US] + x, b + [US] + y;
    assert l[|a|] == US && r[|b|] == US;
    assert |a| == |b|;
    assert a == l[..|a|] == r[..|b|] == b;
    assert x == l[|a| + 1..] == r[|b| + 1..] == y;
  }

  /** On separator-free sources and kinds the key determines the edge it stands for. */
  lemma KeyInjective(a: Id, j: string, b: Id, c: Id, k: string, d: Id)
    requires Clean(a) && Clean(c) && Clean(j) && Clean(k)
    requires Key(a, j, b) == Key(c, k, d)
    ensures a == c && j == k && b == d
  {
    assert Key(a, j, b) == a + [US] + (j + [US] + b);
    assert Key(c, k, d) == c + [US] + (k + [US] + d);
    SeparatorSplits(a, c, j + [US] + b, k + [US] + d);
    SeparatorSplits(j, k, b, d);
  }

  /** The hypothesis is needed: with a separator inside an id, two edges share a key. */
  lemma SeparatorCollides(kind: string)
    ensures Key("a" + [US] + kind, kind, "b") == Key("a", kind, kind + [US] + "b")
    ensures "a" + [US] + kind != "a"
  {
    calc {
      Key("a" + [US] + kind, kind, "b");
      "a" + [US] + kind + [US] + kind + [US] + "b";
      "a" + [US] + kind + [US] + (kind + [US] + "b");
      Key("a", kind, kind + [US] + "b");
    }
    assert |"a" + [US] + kind| > |"a"|;
  }

  ghost predicate CleanEdges(g: Graph) {
    forall k :: k in g.edges ==> Clean(g.edges[k].src) && Clean(g.edges[k].kind)
  }

  lemma CleanLinkKeepsIndex(g: Graph, src: Id, kind: string, dst: Id, props: map<string, Value>)
    requires WellFormed(g) && IndexExact(g) && CleanEdges(g) && Linkable(g, src, dst)
    requires Clean(src) && Clean(kind)
    ensures IndexExact(Link(g, src, kind, dst, props)) && CleanEdges(Link(g, src, kind, dst, props))
  {
    var key := Key(src, kind, dst);
    if key in g.edges {
      var e := g.edges[key];
      KeyInjective(src, kind, dst, e.src, e.kind, e.dst);
    }
    LinkKeepsIndexExact(g, src, kind, dst, props);
  }

  // ---------------------------------------------------------------- neighbours

  lemma OutHopsMembers(g: Graph, keys: seq<string>, kinds: Option<set<string>>, h: Hop)
    requires Resolves(g, keys)
    ensures h in OutHops(g, keys, kinds) <==>
            exists k :: k in keys && h == Hop(g.edges[k], g.entities[g.edges[k].dst])
                        && Allowed(kinds, g.edges[k].kind)
  {
    if keys != [] {
      SplitLast(keys);
      OutHopsMembers(g, keys[..|keys| - 1], kinds, h);
    }
  }

  lemma InHopsMembers(g: Graph, keys: seq<string>, kinds: Option<set<string>>, h: Hop)
    requires Resolves(g, keys)
    ensures h in InHops(g, keys, kinds) <==>
            exists k :: k in keys && h == Hop(g.edges[k], g.entities[g.edges[k].src])
                        && Allowed(kinds, g.edges[k].kind)
  {
    if keys != [] {
      SplitLast(keys);
      InHopsMembers(g, keys[..|keys| - 1], kinds, h);
    }
  }

  ghost predicate OutHop(g: Graph, id: Id, kinds: Option<set<string>>, h: Hop) {
    exists k :: k in g.edges && g.edges[k].src == id && g.edges[k].dst in g.entities
                && Allowed(kinds, g.edges[k].kind) && h == Hop(g.edges[k], g.entities[g.edges[k].dst])
  }

  ghost predicate InHop(g: Graph, id: Id, kinds: Option<set<string>>, h: Hop) {
    exists k :: k in g.edges && g.edges[k].dst == id && g.edges[k].src in g.entities
                && Allowed(kinds, g.edges[k].kind) && h == Hop(g.edges[k], g.entities[g.edges[k].src])
  }

  /** Reading the indexes gives exactly what filtering the whole edge map would give. */
  lemma NeighborsAreFilteredEdges(g: Graph, id: Id, dir: Direction, kinds: Option<set<string>>, h: Hop)
    requires WellFormed(g) && IndexExact(g)
    ensures h in Neighbors(g, id, dir, kinds) <==>
            (!dir.In? && OutHop(g, id, kinds, h)) || (!dir.Out? && InHop(g, id, kinds, h))
  {
    OutHopsMembers(g, Bucket(g.outgoing, id), kinds, h);
    InHopsMembers(g, Bucket(g.incoming, id), kinds, h);
  }

  lemma OutHopsDistinct(g: Graph, keys: seq<string>, kinds: Option<set<string>>)
    requires WellFormed(g) && Distinct(keys)
    requires Resolves(g, keys)
    ensures Distinct(OutHops(g, keys, kinds))
  {
    if keys != [] {
      var n := |keys| - 1;
      SplitLast(keys);
      OutHopsDistinct(g, keys[..n], kinds);
      var e := g.edges[keys[n]];
      var h := Hop(e, g.entities[e.dst]);
      OutHopsMembers(g, keys[..n], kinds, h);
      assert h !in OutHops(g, keys[..n], kinds);
      DistinctSnoc(OutHops(g, keys[..n], kinds), h);
    }
  }

  lemma InHopsDistinct(g: Graph, keys: seq<string>, kinds: Option<set<string>>)
    requires WellFormed(g) && Distinct(keys)
    requires Resolves(g, keys)
    ensures Distinct(InHops(g, keys, kinds))
  {
    if keys != [] {
      var n := |keys| - 1;
      SplitLast(keys);
      InHopsDistinct(g, keys[..n], kinds);
      var e := g.edges[keys[n]];
      var h := Hop(e, g.entities[e.src]);
      InHopsMembers(g, keys[..n], kinds, h);
      assert h !in InHops(g, keys[..n], kinds);
      DistinctSnoc(InHops(g, keys[..n], kinds), h);
    }
  }

  /** No hop is listed twice, except a self-loop, which direction 'both' lists once per side. */
  ghost predicate HopsDistinct(hops: seq<Hop>, at: Id) {
    forall i, j :: 0 <= i < j < |hops| && hops[i] == hops[j] ==> hops[i].entity.id == at
  }

  lemma NeighborsDistinct(g: Graph, id: Id, dir: Direction, kinds: Option<set<string>>)
    requires WellFormed(g) && IndexExact(g)
    ensures HopsDistinct(Neighbors(g, id, dir, kinds), id)
  {
    var outs := OutHops(g, Bucket(g.outgoing, id), kinds);
    var ins := InHops(g, Bucket(g.incoming, id), kinds);
    NoRepeatsIffDistinct(Bucket(g.outgoing, id));
    NoRepeatsIffDistinct(Bucket(g.incoming, id));
    OutHopsDistinct(g, Bucket(g.outgoing, id), kinds);
    InHopsDistinct(g, Bucket(g.incoming, id), kinds);
    forall h | h in outs && h in ins ensures h.entity.id == id {
      OutHopsMembers(g, Bucket(g.outgoing, id), kinds, h);
      InHopsMembers(g, Bucket(g.incoming, id), kinds, h);
    }
    var all := Neighbors(g, id, dir, kinds);
    if dir.Both? {
      assert all == outs + ins;
      forall i, j | 0 <= i < j < |all| && all[i] == all[j] ensures all[i].entity.id == id {
        if j >= |outs| > i { assert all[i] in outs && all[j] in ins; }
      }
    } else {
      assert all == if dir.In? then ins else outs;
    }
  }
}
