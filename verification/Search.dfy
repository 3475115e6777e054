/**
 * What the queue of `findPaths` means while the search runs: the queue, the results and the
 * best-depth map, each tied to the level-by-level enumeration of module Paths.
 */
module Search {
  import opened Values
  import opened GraphModel
  import opened Paths

  datatype Item = Item(id: Id, path: seq<Id>, edges: seq<Edge>)
  datatype Found = Found(entity: Entity, path: seq<Id>, edges: seq<Edge>)

  function EdgesOf(w: Walk): seq<Edge> { seq(|w|, i requires 0 <= i < |w| => w[i].edge) }

  function ItemOf(s: Id, w: Walk): Item { Item(End(s, w), Visited(s, w), EdgesOf(w)) }

  function Items(s: Id, ws: seq<Walk>): seq<Item> {
    seq(|ws|, i requires 0 <= i < |ws| => ItemOf(s, ws[i]))
  }

  function FoundOf(s: Id, w: Walk): Found
    requires w != []
  {
    Found(w[|w| - 1].entity, Visited(s, w), EdgesOf(w))
  }

  ghost predicate Proper(ws: seq<Walk>) { forall i :: 0 <= i < |ws| ==> ws[i] != [] }

  /** What the caller sees of the enumerated paths: those its predicate accepts, in order. */
  ghost function Report(s: Id, pred: Found -> bool, ws: seq<Walk>): seq<Found>
    requires Proper(ws)
  {
    if ws == [] then []
    else
      var n := |ws| - 1;
      assert Proper(ws[..n]);
      Report(s, pred, ws[..n]) + if pred(FoundOf(s, ws[n])) then [FoundOf(s, ws[n])] else []
  }

  /** The adjacency that `neighbors` gives for a direction and a kind filter. */
  ghost function Adj(g: Graph, dir: Direction, kinds: Option<set<string>>): Adjacency
    requires Navigable(g)
  {
    id => Neighbors(g, id, dir, kinds)
  }

  lemma ReportSnoc(s: Id, pred: Found -> bool, ws: seq<Walk>, w: Walk)
    requires Proper(ws) && w != []
    ensures Proper(ws + [w])
    ensures Report(s, pred, ws + [w])
         == Report(s, pred, ws) + if pred(FoundOf(s, w)) then [FoundOf(s, w)] else []
  {
    assert (ws + [w])[..|ws|] == ws;
  }

  lemma GrowSnoc(s: Id, w: Walk, hops: seq<Hop>, j: nat)
    requires j < |hops|
    ensures Grow(s, w, hops[..j + 1])
         == Grow(s, w, hops[..j]) + if hops[j].entity.id in Visited(s, w) then [] else [w + [hops[j]]]
  {
    assert hops[..j + 1][..j] == hops[..j];
  }

  lemma GrowAllSnoc(adj: Adjacency, s: Id, ws: seq<Walk>, p: nat)
    requires p < |ws|
    ensures GrowAll(adj, s, ws[..p + 1]) == GrowAll(adj, s, ws[..p]) + Grow(s, ws[p], adj(End(s, ws[p])))
  {
    assert ws[..p + 1][..p] == ws[..p];
  }

  lemma KeptSnoc(keep: Rule, ws: seq<Walk>, w: Walk)
    ensures Kept(keep, ws + [w]) == Kept(keep, ws) + if keep(w) then [w] else []
  {
    assert (ws + [w])[..|ws|] == ws;
  }

  lemma ItemSnoc(s: Id, w: Walk, h: Hop)
    ensures ItemOf(s, w + [h]) == Item(h.entity.id, Visited(s, w) + [h.entity.id], EdgesOf(w) + [h.edge])
    ensures FoundOf(s, w + [h]) == Found(h.entity, Visited(s, w) + [h.entity.id], EdgesOf(w) + [h.edge])
  {
    VisitedSnoc(s, w, h);
    assert EdgesOf(w + [h]) == EdgesOf(w) + [h.edge];
  }

  lemma ItemsSnoc(s: Id, rest: seq<Walk>, kept: seq<Walk>, u: Walk)
    ensures Items(s, rest + (kept + [u])) == Items(s, rest + kept) + [ItemOf(s, u)]
    ensures rest + (kept + []) == rest + kept
  {}

  // ------------------------------------------------------------------ what the search relies on

  type Metric = Id -> Option<nat>

  /** The fixed part of a search. */
  datatype Plan = Plan(adj: Adjacency, keep: Rule, dist: Metric, start: Id, pred: Found -> bool)

  // Instantiation marks: the facts below are used only where a mark names them.
  ghost predicate Grown(u: Walk) { true }
  ghost predicate Entered(v: Id) { true }

  /** `dist` measures and `keep` prunes by it: the facts about distances that the search relies on. */
  ghost predicate Faithful(p: Plan) {
    && p.keep([]) && p.dist(p.start) == Some(0)
    && (forall u {:trigger Grown(u)} :: Grown(u) && IsWalk(p.adj, p.start, u) ==>
          var d := p.dist(End(p.start, u));
          d.Some? && d.value <= |u| && (p.keep(u) <==> |u| <= d.value + 2))
    && (forall v {:trigger Entered(v)} :: Entered(v) && p.dist(v).Some? ==>
          exists w :: w in Level(p.adj, p.keep, p.start, p.dist(v).value) && End(p.start, w) == v)
  }

  ghost function DistanceOf(adj: Adjacency, s: Id): Metric {
    v => if d: nat :| IsDistance(adj, s, v, d) then Some(d) else None
  }

  /** True distances and the pruning rule of `findPaths` are faithful. */
  lemma PruningFaithful(adj: Adjacency, s: Id, pred: Found -> bool) returns (p: Plan)
    ensures Faithful(p) && p.adj == adj && p.start == s && p.pred == pred
    ensures forall k: int :: UpTo(p.adj, p.keep, s, k) == Enumerated(adj, s, k)
  {
    p := Plan(adj, Pruning(adj, s), DistanceOf(adj, s), s, pred);
    assert WalkTo(adj, s, s, []);
    assert IsDistance(adj, s, s, 0);
    DistanceIs(adj, s, s, 0);
    forall u | Grown(u) && IsWalk(adj, s, u)
      ensures var d := p.dist(End(s, u));
              d.Some? && d.value <= |u| && (p.keep(u) <==> |u| <= d.value + 2)
    {
      var x := ShortestExists(adj, s, End(s, u), u);
      DistanceIs(adj, s, End(s, u), |x|);
      ContinuedByDistance(adj, s, u, |x|);
    }
    forall v | Entered(v) && p.dist(v).Some?
      ensures exists w :: w in Level(adj, p.keep, s, p.dist(v).value) && End(s, w) == v
    {
      var d := p.dist(v).value;
      var w :| WalkTo(adj, s, v, w) && |w| == d;
      ShortestAdmissible(adj, s, w);
      LevelMembers(adj, p.keep, s, d, w);
    }
  }

  lemma DistanceIs(adj: Adjacency, s: Id, v: Id, d: nat)
    requires IsDistance(adj, s, v, d)
    ensures DistanceOf(adj, s)(v) == Some(d)
  {
    var e := DistanceOf(adj, s)(v);
    assert IsDistance(adj, s, v, e.value);
    DistanceUnique(adj, s, v, d, e.value);
  }

  /** `bestDepth` holds true distances, and every vertex at distance at most k has one. */
  ghost predicate BestDepth(dist: Metric, best: map<Id, nat>, k: nat) {
    && (forall v :: v in best ==> dist(v) == Some(best[v]))
    && (forall v :: dist(v).Some? && dist(v).value <= k ==> v in best)
  }

  // ------------------------------------------------------------------ the state of the search

  /** The level being grown, how many of its walks are done, and what they grew into. */
  datatype Progress = Progress(k: nat, pos: nat, cur: seq<Walk>, made: seq<Walk>)

  ghost predicate Frontier(p: Plan, top: nat, g: Progress) {
    && g.k <= top && g.pos <= |g.cur|
    && forall mark {:trigger Unsealed(mark)} :: Unsealed(mark) ==>
         (g.cur == Kept(p.keep, Level(p.adj, p.keep, p.start, g.k))
          && g.made == if g.k < top then GrowAll(p.adj, p.start, g.cur[..g.pos]) else [])
  }

  ghost function Waiting(p: Plan, rest: seq<Walk>, made: seq<Walk>): seq<Item> {
    Items(p.start, rest + Kept(p.keep, made))
  }

  ghost function Listed(p: Plan, k: nat, made: seq<Walk>): seq<Walk> {
    UpTo(p.adj, p.keep, p.start, k) + made
  }

  ghost predicate Searching(p: Plan, k: nat, rest: seq<Walk>, made: seq<Walk>,
                            queue: seq<Item>, results: seq<Found>, best: map<Id, nat>)
  {
    forall mark {:trigger Unsealed(mark)} :: Unsealed(mark) ==>
      (&& queue == Waiting(p, rest, made)
       && Proper(Listed(p, k, made)) && results == Report(p.start, p.pred, Listed(p, k, made))
       && BestDepth(p.dist, best, k)
       && forall w :: w in made ==> End(p.start, w) in best)
  }

  lemma SearchEnds(p: Plan, k: nat, rest: seq<Walk>, made: seq<Walk>,
                   queue: seq<Item>, results: seq<Found>, best: map<Id, nat>)
    requires Searching(p, k, rest, made, queue, results, best)
    ensures queue == Waiting(p, rest, made)
    ensures Proper(Listed(p, k, made)) && results == Report(p.start, p.pred, Listed(p, k, made))
    ensures BestDepth(p.dist, best, k)
    ensures forall w :: w in made ==> End(p.start, w) in best
  {
    assert Unsealed(true);
  }

  lemma SearchFrom(p: Plan, k: nat, rest: seq<Walk>, made: seq<Walk>,
                   queue: seq<Item>, results: seq<Found>, best: map<Id, nat>)
    requires queue == Waiting(p, rest, made)
    requires Proper(Listed(p, k, made)) && results == Report(p.start, p.pred, Listed(p, k, made))
    requires BestDepth(p.dist, best, k)
    requires forall w :: w in made ==> End(p.start, w) in best
    ensures Searching(p, k, rest, made, queue, results, best)
  {}

  lemma StartItem(s: Id, root: Walk)
    requires root == []
    ensures Items(s, [root]) == [Item(s, [s], [])]
  {
    assert Visited(s, root) == [s] && EdgesOf(root) == [];
  }

  lemma StartLists(p: Plan, root: Walk)
    ensures Waiting(p, [root], []) == Items(p.start, [root])
    ensures Listed(p, 0, []) == [] && Proper(Listed(p, 0, [])) && Report(p.start, p.pred, Listed(p, 0, [])) == []
  {
    assert Kept(p.keep, []) == [] && [root] + [] == [root];
  }

  lemma StartBest(p: Plan)
    requires Faithful(p)
    ensures BestDepth(p.dist, map[p.start := 0], 0)
  {
    forall v | p.dist(v).Some? && p.dist(v).value <= 0 ensures v == p.start {
      assert Entered(v);
    }
  }

  lemma KeptRoot(keep: Rule)
    requires keep([])
    ensures Kept(keep, [[]]) == [[]]
  {
    var root: Walk := [];
    assert Kept(keep, [root]) == Kept(keep, []) + [root];
  }

  lemma SearchStart(p: Plan, top: nat)
    requires Faithful(p)
    ensures Frontier(p, top, Progress(0, 0, [[]], []))
    ensures Searching(p, 0, [[]], [], [Item(p.start, [p.start], [])], [], map[p.start := 0])
  {
    var root: Walk := [];
    StartItem(p.start, root);
    KeptRoot(p.keep);
    StartLists(p, root);
    StartBest(p);
    SearchFrom(p, 0, [root], [], [Item(p.start, [p.start], [])], [], map[p.start := 0]);
  }

  /** Taking the first queued path off: it is the next walk of the level. */
  lemma SearchPop(p: Plan, g: Progress, queue: seq<Item>, results: seq<Found>, best: map<Id, nat>)
    requires g.pos < |g.cur| && Searching(p, g.k, g.cur[g.pos..], g.made, queue, results, best)
    ensures queue != [] && queue[0] == ItemOf(p.start, g.cur[g.pos])
    ensures Searching(p, g.k, g.cur[g.pos + 1..], g.made, queue[1..], results, best)
  {
    SearchEnds(p, g.k, g.cur[g.pos..], g.made, queue, results, best);
    var w, rest := g.cur[g.pos], g.cur[g.pos + 1..];
    assert g.cur[g.pos..] + Kept(p.keep, g.made) == [w] + (rest + Kept(p.keep, g.made));
    assert queue[1..] == Items(p.start, rest + Kept(p.keep, g.made));
  }

  /** Once a level is complete, every vertex one step further has been entered. */
  lemma BestDepthNextLevel(p: Plan, best: map<Id, nat>, k: nat)
    requires Faithful(p) && BestDepth(p.dist, best, k)
    requires forall w :: w in Level(p.adj, p.keep, p.start, k + 1) ==> End(p.start, w) in best
    ensures BestDepth(p.dist, best, k + 1)
  {
    forall v | p.dist(v) == Some(k + 1) ensures v in best {
      assert Entered(v);
    }
  }

  /** A finished level: the queue holds exactly the continued walks of the next one. */
  lemma SearchNextLevel(p: Plan, k: nat, made: seq<Walk>, queue: seq<Item>, results: seq<Found>, best: map<Id, nat>)
    requires Faithful(p) && made == Level(p.adj, p.keep, p.start, k + 1)
    requires Searching(p, k, [], made, queue, results, best)
    ensures Searching(p, k + 1, Kept(p.keep, made), [], queue, results, best)
  {
    SearchEnds(p, k, [], made, queue, results, best);
    BestDepthNextLevel(p, best, k);
    UpToSnoc(p.adj, p.keep, p.start, k);
    assert Listed(p, k + 1, []) == Listed(p, k, made);
    assert [] + Kept(p.keep, made) == Kept(p.keep, made) + Kept(p.keep, []);
  }

  lemma LevelComplete(p: Plan, top: nat, g: Progress)
    requires Frontier(p, top, g) && g.pos == |g.cur|
    ensures g.made == if g.k < top then Level(p.adj, p.keep, p.start, g.k + 1) else []
  {
    assert Unsealed(true);
    assert g.cur[..g.pos] == g.cur;
    LevelGrown(p.adj, p.keep, p.start, g.k);
  }

  lemma QueueNonempty(p: Plan, k: nat, made: seq<Walk>, queue: seq<Item>, results: seq<Found>, best: map<Id, nat>)
    requires Searching(p, k, [], made, queue, results, best) && queue != []
    ensures |Kept(p.keep, made)| > 0 && made != []
  {
    SearchEnds(p, k, [], made, queue, results, best);
    assert |queue| == |Kept(p.keep, made)|;
  }

  lemma FrontierAtLevel(p: Plan, top: nat, k: nat, cur: seq<Walk>)
    requires k <= top && cur == Kept(p.keep, Level(p.adj, p.keep, p.start, k))
    ensures Frontier(p, top, Progress(k, 0, cur, []))
  {
    assert cur[..0] == [];
  }

  /** A non-empty queue means another walk to grow, perhaps the first of the next level. */
  lemma Advance(p: Plan, top: nat, g: Progress, queue: seq<Item>, results: seq<Found>, best: map<Id, nat>)
    returns (h: Progress)
    requires Faithful(p) && Frontier(p, top, g) && queue != []
    requires Searching(p, g.k, g.cur[g.pos..], g.made, queue, results, best)
    ensures Frontier(p, top, h) && h.pos < |h.cur|
    ensures Searching(p, h.k, h.cur[h.pos..], h.made, queue, results, best)
    ensures h == g || h.k == g.k + 1
  {
    h := g;
    if g.pos == |g.cur| {
      h := NextLevel(p, top, g, queue, results, best);
    }
  }

  lemma NextLevel(p: Plan, top: nat, g: Progress, queue: seq<Item>, results: seq<Found>, best: map<Id, nat>)
    returns (h: Progress)
    requires Faithful(p) && Frontier(p, top, g) && queue != [] && g.pos == |g.cur|
    requires Searching(p, g.k, g.cur[g.pos..], g.made, queue, results, best)
    ensures Frontier(p, top, h) && h.pos < |h.cur|
    ensures Searching(p, h.k, h.cur[h.pos..], h.made, queue, results, best)
    ensures h.k == g.k + 1
  {
    assert g.cur[g.pos..] == [];
    LevelComplete(p, top, g);
    QueueNonempty(p, g.k, g.made, queue, results, best);
    SearchNextLevel(p, g.k, g.made, queue, results, best);
    h := AtLevel(p, top, g.k + 1, Kept(p.keep, g.made), queue, results, best);
  }

  lemma AtLevel(p: Plan, top: nat, k: nat, cur: seq<Walk>, queue: seq<Item>, results: seq<Found>, best: map<Id, nat>)
    returns (h: Progress)
    requires k <= top && cur == Kept(p.keep, Level(p.adj, p.keep, p.start, k))
    requires Searching(p, k, cur, [], queue, results, best)
    ensures Frontier(p, top, h) && h == Progress(k, 0, cur, [])
    ensures Searching(p, h.k, h.cur[h.pos..], h.made, queue, results, best)
  {
    FrontierAtLevel(p, top, k, cur);
    h := Progress(k, 0, cur, []);
    assert h.cur[0..] == cur;
  }

  lemma FrontierWalk(p: Plan, top: nat, g: Progress)
    requires p.keep([]) && Frontier(p, top, g) && g.pos < |g.cur|
    ensures |g.cur[g.pos]| == g.k && IsWalk(p.adj, p.start, g.cur[g.pos])
  {
    assert Unsealed(true);
    LevelWalk(p.adj, p.keep, p.start, g.k, g.cur[g.pos]);
  }

  ghost function GrowStep(p: Plan, top: nat, g: Progress): Progress
    requires g.pos < |g.cur|
  {
    var w := g.cur[g.pos];
    g.(pos := g.pos + 1,
       made := if g.k < top then g.made + Grow(p.start, w, p.adj(End(p.start, w))) else g.made)
  }

  lemma FrontierStep(p: Plan, top: nat, g: Progress)
    requires Frontier(p, top, g) && g.pos < |g.cur|
    ensures Frontier(p, top, GrowStep(p, top, g))
  {
    assert Unsealed(true);
    GrowAllSnoc(p.adj, p.start, g.cur, g.pos);
  }

  /** What meeting one neighbour does to the queue, the results and the best-depth map. */
  function Visit(pred: Found -> bool, depth: nat, item: Item, found: Found,
                 queue: seq<Item>, results: seq<Found>, best: map<Id, nat>)
    : (seq<Item>, seq<Found>, map<Id, nat>)
  {
    var again := item.id !in best || depth <= best[item.id] + 2;
    (if again then queue + [item] else queue,
     if pred(found) then results + [found] else results,
     if again then best[item.id := if item.id in best && best[item.id] <= depth then best[item.id] else depth] else best)
  }

  /** The map entry written for a walk of length k + 1 is the true distance, and decides its queueing. */
  lemma VisitBest(p: Plan, k: nat, best: map<Id, nat>, u: Walk)
    requires Faithful(p) && BestDepth(p.dist, best, k) && IsWalk(p.adj, p.start, u) && |u| == k + 1
    ensures var v := End(p.start, u);
            var again := v !in best || k + 1 <= best[v] + 2;
            && (again <==> p.keep(u))
            && BestDepth(p.dist, best[v := if v in best && best[v] <= k + 1 then best[v] else k + 1], k)
  {
    assert Grown(u);
  }

  lemma VisitQueue(p: Plan, rest: seq<Walk>, made: seq<Walk>, u: Walk)
    ensures Waiting(p, rest, made + [u])
         == Waiting(p, rest, made) + if p.keep(u) then [ItemOf(p.start, u)] else []
  {
    KeptSnoc(p.keep, made, u);
    ItemsSnoc(p.start, rest, Kept(p.keep, made), u);
  }

  lemma VisitResults(p: Plan, k: nat, made: seq<Walk>, u: Walk)
    requires Proper(Listed(p, k, made)) && u != []
    ensures Proper(Listed(p, k, made + [u]))
    ensures Report(p.start, p.pred, Listed(p, k, made + [u]))
         == Report(p.start, p.pred, Listed(p, k, made)) + if p.pred(FoundOf(p.start, u)) then [FoundOf(p.start, u)] else []
  {
    ReportSnoc(p.start, p.pred, Listed(p, k, made), u);
    assert Listed(p, k, made + [u]) == Listed(p, k, made) + [u];
  }

  /** Reporting, measuring and perhaps queueing one more walk of length k + 1. */
  lemma SearchStep(p: Plan, k: nat, rest: seq<Walk>, made: seq<Walk>,
                   queue: seq<Item>, results: seq<Found>, best: map<Id, nat>, u: Walk)
    requires Faithful(p) && Searching(p, k, rest, made, queue, results, best)
    requires IsWalk(p.adj, p.start, u) && |u| == k + 1
    ensures var m := Visit(p.pred, k + 1, ItemOf(p.start, u), FoundOf(p.start, u), queue, results, best);
            Searching(p, k, rest, made + [u], m.0, m.1, m.2)
  {
    SearchEnds(p, k, rest, made, queue, results, best);
    var m := Visit(p.pred, k + 1, ItemOf(p.start, u), FoundOf(p.start, u), queue, results, best);
    VisitBest(p, k, best, u);
    VisitQueue(p, rest, made, u);
    VisitResults(p, k, made, u);
    VisitEnds(p, k, made, best, u);
    SearchFrom(p, k, rest, made + [u], m.0, m.1, m.2);
  }

  lemma VisitEnds(p: Plan, k: nat, made: seq<Walk>, best: map<Id, nat>, u: Walk)
    requires forall w :: w in made ==> End(p.start, w) in best
    ensures var v := End(p.start, u);
            var again := v !in best || k + 1 <= best[v] + 2;
            var best' := if again then best[v := if v in best && best[v] <= k + 1 then best[v] else k + 1] else best;
            forall w :: w in made + [u] ==> End(p.start, w) in best'
  {}

  /** An empty queue: nothing is left on any deeper level. */
  lemma SearchDone(p: Plan, maxDepth: int, top: nat, g: Progress, results: seq<Found>, best: map<Id, nat>)
    requires p.keep([]) && top == (if maxDepth < 0 then 0 else maxDepth)
    requires Frontier(p, top, g) && Searching(p, g.k, g.cur[g.pos..], g.made, [], results, best)
    ensures var ws := UpTo(p.adj, p.keep, p.start, maxDepth);
            Proper(ws) && results == Report(p.start, p.pred, ws)
  {
    assert Unsealed(true);
    var left := g.cur[g.pos..] + Kept(p.keep, g.made);
    assert |left| == |Items(p.start, left)| == 0;
    assert g.pos == |g.cur| && g.cur[..g.pos] == g.cur && Kept(p.keep, g.made) == [];
    EnumerationDone(p, maxDepth, top, g);
  }

  lemma EnumerationDone(p: Plan, maxDepth: int, top: nat, g: Progress)
    requires top == (if maxDepth < 0 then 0 else maxDepth) && g.k <= top
    requires g.cur == Kept(p.keep, Level(p.adj, p.keep, p.start, g.k))
    requires g.made == if g.k < top then GrowAll(p.adj, p.start, g.cur) else []
    requires Kept(p.keep, g.made) == []
    ensures Listed(p, g.k, g.made) == UpTo(p.adj, p.keep, p.start, maxDepth)
  {
    NoLevels(p.adj, p.keep, p.start, maxDepth);
    if g.k < top {
      LevelGrown(p.adj, p.keep, p.start, g.k);
      UpToSnoc(p.adj, p.keep, p.start, g.k);
      LevelsDie(p.adj, p.keep, p.start, g.k + 1, maxDepth);
    }
  }
}
