/** The in-memory graph store: four maps updated in place, and the path search over them. */
module GraphStore {
  import opened Values
  import opened GraphModel
  import opened Paths
  import opened Search

  class InMemoryGraphStore {
    var entities: map<Id, Entity>
    var order: seq<Id>
    var edges: map<string, Edge>
    var outEdges: map<Id, seq<string>>
    var inEdges: map<Id, seq<string>>

    /** The graph the four maps stand for. */
    ghost function View(): Graph
      reads this
    {
      Graph(entities, order, edges, outEdges, inEdges)
    }

    ghost predicate Valid()
      reads this
    {
      WellFormed(View())
    }

    constructor ()
      ensures Valid() && View() == EMPTY
    {
      entities, order, edges, outEdges, inEdges := map[], [], map[], map[], map[];
    }

    method UpsertEntity(e: Entity) returns (r: Option<Entity>)
      requires Valid()
      modifies this
      ensures Valid()
      ensures Storable(e) ==> r == Some(Merged(old(View()), e)) && View() == Upsert(old(View()), e)
      ensures !Storable(e) ==> r == None && View() == old(View())
      ensures old(IndexExact(View())) ==> IndexExact(View())
    {
      if e.id == "" || e.typ == "" { return None; }
      UpsertWellFormed(View(), e);
      UpsertKeepsIndex(View(), e);
      var merged := e;
      if e.id in entities {
        var previous := entities[e.id];
        merged := Entity(e.id, e.typ, previous.fields + e.fields, previous.data + e.data);
      } else {
        order := order + [e.id];
      }
      entities := entities[e.id := merged];
      r := Some(merged);
    }

    method GetEntity(id: Id) returns (r: Option<Entity>)
      ensures r == if id in View().entities then Some(View().entities[id]) else None
    {
      r := if id in entities then Some(entities[id]) else None;
    }

    /** Fails, changing nothing, when an endpoint is missing. */
    method LinkEntities(src: Id, kind: string, dst: Id, props: map<string, Value>) returns (r: Option<Edge>)
      requires Valid()
      modifies this
      ensures Valid()
      ensures Linkable(old(View()), src, dst) ==>
                r == Some(Edge(src, kind, dst, props)) && View() == Link(old(View()), src, kind, dst, props)
      ensures !Linkable(old(View()), src, dst) ==> r == None && View() == old(View())
      ensures old(IndexExact(View())) && Linkable(old(View()), src, dst) ==>
                (IndexExact(View()) <==> !KeyClash(old(View()), src, kind, dst))
    {
      if src !in entities || dst !in entities { return None; }
      LinkWellFormed(View(), src, kind, dst, props);
      if IndexExact(View()) { LinkKeepsIndexExact(View(), src, kind, dst, props); }
      var key := Key(src, kind, dst);
      var edge := Edge(src, kind, dst, props);
      edges := edges[key := edge];
      outEdges := AddIndex(outEdges, src, key);
      inEdges := AddIndex(inEdges, dst, key);
      r := Some(edge);
    }

    method Clear()
      modifies this
      ensures Valid() && View() == EMPTY
    {
      entities, order, edges, outEdges, inEdges := map[], [], map[], map[], map[];
    }

    method CollectOut(bucket: seq<string>, kinds: Option<set<string>>) returns (r: seq<Hop>)
      requires Resolves(View(), bucket)
      ensures r == OutHops(View(), bucket, kinds)
    {
      r := [];
      for i := 0 to |bucket|
        invariant r == OutHops(View(), bucket[..i], kinds)
      {
        OutHopsSnoc(View(), bucket, kinds, i);
        var edge := edges[bucket[i]];
        if kinds.Some? && edge.kind !in kinds.value { continue; }
        r := r + [Hop(edge, entities[edge.dst])];
      }
      assert bucket[..|bucket|] == bucket;
    }

    method CollectIn(bucket: seq<string>, kinds: Option<set<string>>) returns (r: seq<Hop>)
      requires Resolves(View(), bucket)
      ensures r == InHops(View(), bucket, kinds)
    {
      r := [];
      for i := 0 to |bucket|
        invariant r == InHops(View(), bucket[..i], kinds)
      {
        InHopsSnoc(View(), bucket, kinds, i);
        var edge := edges[bucket[i]];
        if kinds.Some? && edge.kind !in kinds.value { continue; }
        r := r + [Hop(edge, entities[edge.src])];
      }
      assert bucket[..|bucket|] == bucket;
    }

    method FindNeighbors(id: Id, dir: Direction, kinds: Option<set<string>>) returns (r: seq<Hop>)
      requires Navigable(View())
      ensures r == Neighbors(View(), id, dir, kinds)
    {
      ghost var g := View();
      assert Resolves(g, Bucket(g.outgoing, id)) && Resolves(g, Bucket(g.incoming, id));
      var outs, ins := [], [];
      if dir.Out? || dir.Both? {
        outs := CollectOut(if id in outEdges then outEdges[id] else [], kinds);
      }
      if dir.In? || dir.Both? {
        ins := CollectIn(if id in inEdges then inEdges[id] else [], kinds);
      }
      r := outs + ins;
    }

    /** Entities of a type (every entity when `typ` is None), in insertion order. */
    method FindEntities(typ: Option<string>) returns (r: seq<Entity>)
      requires Valid()
      ensures r == OfType(View(), View().order, typ)
    {
      r := [];
      assert forall id :: id in order ==> id in entities;
      for i := 0 to |order|
        invariant r == OfType(View(), order[..i], typ)
      {
        assert order[..i + 1][..i] == order[..i];
        var e := entities[order[i]];
        if typ.None? || e.typ == typ.value { r := r + [e]; }
      }
      assert order[..|order|] == order;
    }

    /** Report, measure and perhaps queue the path that ends in `item`. */
    static method Meet(pred: Found -> bool, item: Hop, path: seq<Id>, edges: seq<Edge>, nextDepth: nat,
                       queue: seq<Item>, results: seq<Found>, bestDepth: map<Id, nat>)
      returns (queue': seq<Item>, results': seq<Found>, bestDepth': map<Id, nat>)
      ensures (queue', results', bestDepth')
           == Visit(pred, nextDepth, Item(item.entity.id, path, edges), Found(item.entity, path, edges),
                    queue, results, bestDepth)
    {
      queue', results', bestDepth' := queue, results, bestDepth;
      if pred(Found(item.entity, path, edges)) {
        results' := results' + [Found(item.entity, path, edges)];
      }
      if item.entity.id !in bestDepth || nextDepth <= bestDepth[item.entity.id] + 2 {
        var prev := if item.entity.id in bestDepth then bestDepth[item.entity.id] else nextDepth;
        bestDepth' := bestDepth[item.entity.id := if prev <= nextDepth then prev else nextDepth];
        queue' := queue' + [Item(item.entity.id, path, edges)];
      }
    }

    /** One round of the search: look at every neighbour of the path `current`. */
    static method Expand(ghost p: Plan, ghost k: nat, ghost w: Walk, ghost rest: seq<Walk>, ghost made: seq<Walk>,
                         pred: Found -> bool, current: Item, next: seq<Hop>,
                         queue: seq<Item>, results: seq<Found>, bestDepth: map<Id, nat>)
      returns (queue': seq<Item>, results': seq<Found>, bestDepth': map<Id, nat>)
      requires Faithful(p) && p.pred == pred && current == ItemOf(p.start, w)
      requires |w| == k && IsWalk(p.adj, p.start, w) && next == p.adj(End(p.start, w))
      requires Searching(p, k, rest, made, queue, results, bestDepth)
      ensures Searching(p, k, rest, made + Grow(p.start, w, next), queue', results', bestDepth')
    {
      queue', results', bestDepth' := queue, results, bestDepth;
      ghost var made' := made;
      var depth := |current.edges|;
      for j := 0 to |next|
        invariant made' == made + Grow(p.start, w, next[..j])
        invariant Searching(p, k, rest, made', queue', results', bestDepth')
      {
        var item := next[j];
        GrowSnoc(p.start, w, next, j);
        if item.entity.id in current.path { continue; }
        ghost var u := w + [item];
        WalkSnoc(p.adj, p.start, w, item);
        ItemSnoc(p.start, w, item);
        SearchStep(p, k, rest, made', queue', results', bestDepth', u);
        made' := made' + [u];
        var path := current.path + [item.entity.id];
        var edges := current.edges + [item.edge];
        queue', results', bestDepth' := Meet(pred, item, path, edges, depth + 1, queue', results', bestDepth');
      }
      assert next[..|next|] == next;
    }

    /** The queue search; `pred` decides which paths are reported, never which are continued. */
    method FindPaths(fromId: Id, dir: Direction, kinds: Option<set<string>>, maxDepth: int, pred: Found -> bool)
      returns (results: seq<Found>)
      requires Navigable(View())
      ensures var ws := Enumerated(Adj(View(), dir, kinds), fromId, maxDepth);
              Proper(ws) && results == Report(fromId, pred, ws)
    {
      ghost var adj := Adj(View(), dir, kinds);
      ghost var p := PruningFaithful(adj, fromId, pred);
      ghost var top := if maxDepth < 0 then 0 else maxDepth;
      results := [];
      var queue := [Item(fromId, [fromId], [])];
      var bestDepth: map<Id, nat> := map[fromId := 0];
      ghost var g := Progress(0, 0, [[]], []);
      SearchStart(p, top);
      assert g.cur[0..] == g.cur;

      while queue != []
        invariant Frontier(p, top, g)
        invariant Searching(p, g.k, g.cur[g.pos..], g.made, queue, results, bestDepth)
        decreases top - g.k, |g.cur| - g.pos
      {
        g := Advance(p, top, g, queue, results, bestDepth);
        ghost var w := g.cur[g.pos];
        FrontierWalk(p, top, g);
        FrontierStep(p, top, g);
        SearchPop(p, g, queue, results, bestDepth);
        var current := queue[0];
        queue := queue[1..];
        var depth := |current.edges|;
        if depth >= maxDepth {
          g := GrowStep(p, top, g);
          continue;
        }
        var next := FindNeighbors(current.id, dir, kinds);
        queue, results, bestDepth := Expand(p, g.k, w, g.cur[g.pos + 1..], g.made, pred,
                                            current, next, queue, results, bestDepth);
        g := GrowStep(p, top, g);
      }
      SearchDone(p, maxDepth, top, g, results, bestDepth);
    }
  }

  ghost function OfType(g: Graph, ids: seq<Id>, typ: Option<string>): seq<Entity>
    requires forall id :: id in ids ==> id in g.entities
  {
    if ids == [] then []
    else
      var e := g.entities[ids[|ids| - 1]];
      OfType(g, ids[..|ids| - 1], typ) + if typ.None? || e.typ == typ.value then [e] else []
  }

  lemma {:induction false} OfTypeMembers(g: Graph, ids: seq<Id>, typ: string, e: Entity)
    requires EntitiesStorable(g.entities) && forall id :: id in ids ==> id in g.entities
    ensures e in OfType(g, ids, Some(typ)) <==> e.id in ids && e.id in g.entities && g.entities[e.id] == e && e.typ == typ
  {
    if ids != [] {
      OfTypeMembers(g, ids[..|ids| - 1], typ, e);
      SplitLast(ids);
    }
  }
}
