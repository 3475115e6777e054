/**
 * Theory of the path search: walks over an adjacency function, distances, and the
 * level-by-level enumeration that `findPaths` computes with its queue.
 */
module Paths {
  import opened Values
  import opened GraphModel

  type Adjacency = Id -> seq<Hop>
  type Walk = seq<Hop>
  type Rule = Walk -> bool

  function End(s: Id, w: Walk): Id { if w == [] then s else w[|w| - 1].entity.id }

  /** The vertices of a walk, the start included. */
  function Visited(s: Id, w: Walk): (p: seq<Id>)
    ensures |p| == |w| + 1
  {
    [s] + seq(|w|, i requires 0 <= i < |w| => w[i].entity.id)
  }

  ghost predicate IsWalk(adj: Adjacency, s: Id, w: Walk) {
    forall i :: 0 <= i < |w| ==> w[i] in adj(End(s, w[..i]))
  }

  ghost predicate Simple(s: Id, w: Walk) { Distinct(Visited(s, w)) }

  ghost predicate WalkTo(adj: Adjacency, s: Id, v: Id, w: Walk) {
    IsWalk(adj, s, w) && End(s, w) == v
  }

  /** `d` is the length of a shortest walk from `s` to `v`. */
  ghost predicate IsDistance(adj: Adjacency, s: Id, v: Id, d: nat) {
    && (exists w :: WalkTo(adj, s, v, w) && |w| == d)
    && (forall w :: WalkTo(adj, s, v, w) ==> d <= |w|)
  }

  /** The pruning rule: a walk is continued if it is at most two longer than the distance of its end. */
  ghost predicate Continued(adj: Adjacency, s: Id, w: Walk) {
    forall u :: WalkTo(adj, s, End(s, w), u) ==> |w| <= |u| + 2
  }

  /** The paths the search is meant to report. */
  ghost predicate Admissible(adj: Adjacency, s: Id, maxDepth: int, w: Walk) {
    && IsWalk(adj, s, w) && Simple(s, w)
    && 1 <= |w| <= maxDepth
    && forall j :: 1 <= j < |w| ==> Continued(adj, s, w[..j])
  }

  // ------------------------------------------------------------------ basic facts

  lemma VisitedSnoc(s: Id, w: Walk, h: Hop)
    ensures Visited(s, w + [h]) == Visited(s, w) + [h.entity.id]
  {}

  lemma SimpleSnoc(s: Id, w: Walk, h: Hop)
    ensures Simple(s, w + [h]) <==> Simple(s, w) && h.entity.id !in Visited(s, w)
  {
    VisitedSnoc(s, w, h);
    var p, v := Visited(s, w), h.entity.id;
    if Distinct(p + [v]) {
      assert forall i :: 0 <= i < |p| ==> (p + [v])[i] == p[i];
      assert (p + [v])[|p|] == v;
    }
    if Distinct(p) && v !in p { DistinctSnoc(p, v); }
  }

  lemma WalkSnoc(adj: Adjacency, s: Id, w: Walk, h: Hop)
    ensures IsWalk(adj, s, w + [h]) <==> IsWalk(adj, s, w) && h in adj(End(s, w))
  {
    var u := w + [h];
    assert u[..|w|] == w;
    assert forall i :: 0 <= i < |w| ==> u[..i] == w[..i] && u[i] == w[i];
    if IsWalk(adj, s, u) {
      forall i | 0 <= i < |w| ensures w[i] in adj(End(s, w[..i])) {
        assert u[i] in adj(End(s, u[..i]));
      }
      assert u[|w|] in adj(End(s, u[..|w|]));
    }
  }

  lemma WalkPrefix(adj: Adjacency, s: Id, w: Walk, k: nat)
    requires IsWalk(adj, s, w) && k <= |w|
    ensures IsWalk(adj, s, w[..k])
  {
    assert forall i :: 0 <= i < k ==> w[..k][..i] == w[..i];
  }

  lemma SpliceEnd(s: Id, w: Walk, k: nat, u: Walk, i: nat)
    requires k <= |w| && End(s, u) == End(s, w[..k]) && |u| <= i <= |u| + |w| - k
    ensures End(s, (u + w[k..])[..i]) == End(s, w[..k + i - |u|])
  {
    var x := u + w[k..];
    if i == |u| {
      assert x[..i] == u;
    } else {
      assert x[..i][i - 1] == w[k + i - |u| - 1];
    }
  }

  /** Walks that meet can be spliced: the tail of `w` after `k` may follow any walk to the same vertex. */
  lemma Splice(adj: Adjacency, s: Id, w: Walk, k: nat, u: Walk)
    requires IsWalk(adj, s, w) && k <= |w| && WalkTo(adj, s, End(s, w[..k]), u)
    ensures WalkTo(adj, s, End(s, w), u + w[k..])
  {
    var x := u + w[k..];
    forall i | 0 <= i < |x| ensures x[i] in adj(End(s, x[..i])) {
      if i < |u| {
        assert x[..i] == u[..i];
      } else {
        SpliceEnd(s, w, k, u, i);
        assert x[i] == w[k + i - |u|];
      }
    }
    SpliceEnd(s, w, k, u, |x|);
    assert x[..|x|] == x && w[..|w|] == w;
  }

  /** Every prefix of a shortest walk is shortest, and a shortest walk is simple. */
  lemma ShortestPrefix(adj: Adjacency, s: Id, w: Walk, k: nat, u: Walk)
    requires IsWalk(adj, s, w) && IsDistance(adj, s, End(s, w), |w|) && k <= |w|
    requires WalkTo(adj, s, End(s, w[..k]), u)
    ensures k <= |u|
  {
    Splice(adj, s, w, k, u);
    assert |u + w[k..]| == |u| + |w| - k;
  }

  lemma VisitedAt(s: Id, w: Walk, i: nat)
    requires i <= |w|
    ensures Visited(s, w)[i] == End(s, w[..i])
  {}

  lemma NoReturn(adj: Adjacency, s: Id, w: Walk, i: nat, j: nat)
    requires IsWalk(adj, s, w) && IsDistance(adj, s, End(s, w), |w|) && i < j <= |w|
    ensures End(s, w[..i]) != End(s, w[..j])
  {
    WalkPrefix(adj, s, w, i);
    if End(s, w[..i]) == End(s, w[..j]) { ShortestPrefix(adj, s, w, j, w[..i]); }
  }

  lemma ShortestSimple(adj: Adjacency, s: Id, w: Walk)
    requires IsWalk(adj, s, w) && IsDistance(adj, s, End(s, w), |w|)
    ensures Simple(s, w)
  {
    var p := Visited(s, w);
    forall i, j | 0 <= i < j < |p| ensures p[i] != p[j] {
      VisitedAt(s, w, i);
      VisitedAt(s, w, j);
      NoReturn(adj, s, w, i, j);
    }
  }

  lemma ShortestContinued(adj: Adjacency, s: Id, w: Walk, k: nat)
    requires IsWalk(adj, s, w) && IsDistance(adj, s, End(s, w), |w|) && k <= |w|
    ensures Continued(adj, s, w[..k])
  {
    forall u | WalkTo(adj, s, End(s, w[..k]), u) ensures |w[..k]| <= |u| + 2 {
      ShortestPrefix(adj, s, w, k, u);
    }
  }

  /** A reachable vertex has a shortest walk. */
  lemma ShortestExists(adj: Adjacency, s: Id, v: Id, w: Walk) returns (u: Walk)
    requires WalkTo(adj, s, v, w)
    ensures WalkTo(adj, s, v, u) && |u| <= |w| && IsDistance(adj, s, v, |u|)
    decreases |w|
  {
    if x :| WalkTo(adj, s, v, x) && |x| < |w| {
      u := ShortestExists(adj, s, v, x);
    } else {
      u := w;
    }
  }

  lemma DistanceUnique(adj: Adjacency, s: Id, v: Id, d: nat, e: nat)
    requires IsDistance(adj, s, v, d) && IsDistance(adj, s, v, e)
    ensures d == e
  {}

  lemma ContinuedByDistance(adj: Adjacency, s: Id, w: Walk, d: nat)
    requires IsDistance(adj, s, End(s, w), d)
    ensures Continued(adj, s, w) <==> |w| <= d + 2
  {}

  // ------------------------------------------------------------------ the enumeration

  /** One-hop extensions of `w` that do not revisit a vertex, in neighbour order. */
  function Grow(s: Id, w: Walk, hops: seq<Hop>): seq<Walk> {
    if hops == [] then []
    else
      var h := hops[|hops| - 1];
      Grow(s, w, hops[..|hops| - 1]) + if h.entity.id in Visited(s, w) then [] else [w + [h]]
  }

  ghost function GrowAll(adj: Adjacency, s: Id, ws: seq<Walk>): seq<Walk> {
    if ws == [] then []
    else
      var w := ws[|ws| - 1];
      GrowAll(adj, s, ws[..|ws| - 1]) + Grow(s, w, adj(End(s, w)))
  }

  /** The walks that are queued again. */
  ghost function Kept(keep: Rule, ws: seq<Walk>): seq<Walk> {
    if ws == [] then []
    else
      var w := ws[|ws| - 1];
      Kept(keep, ws[..|ws| - 1]) + if keep(w) then [w] else []
  }

  ghost function Level(adj: Adjacency, keep: Rule, s: Id, k: nat): seq<Walk> {
    if k == 0 then [[]] else GrowAll(adj, s, Kept(keep, Level(adj, keep, s, k - 1)))
  }

  /** Levels 1 to k, in order. */
  ghost function UpTo(adj: Adjacency, keep: Rule, s: Id, k: int): seq<Walk> {
    if k <= 0 then [] else UpTo(adj, keep, s, k - 1) + Level(adj, keep, s, k)
  }

  lemma GrowMembers(s: Id, w: Walk, hops: seq<Hop>, u: Walk)
    ensures u in Grow(s, w, hops) <==>
            u != [] && u[..|u| - 1] == w && u[|u| - 1] in hops && u[|u| - 1].entity.id !in Visited(s, w)
  {
    if hops != [] {
      SplitLast(hops);
      GrowMembers(s, w, hops[..|hops| - 1], u);
      var h := hops[|hops| - 1];
      if u != [] && u[..|u| - 1] == w && u[|u| - 1] == h { assert u == w + [h]; }
    }
  }

  lemma GrowAllMembers(adj: Adjacency, s: Id, ws: seq<Walk>, u: Walk)
    ensures u in GrowAll(adj, s, ws) <==>
            u != [] && u[..|u| - 1] in ws && u[|u| - 1] in adj(End(s, u[..|u| - 1]))
            && u[|u| - 1].entity.id !in Visited(s, u[..|u| - 1])
  {
    if ws != [] {
      SplitLast(ws);
      GrowAllMembers(adj, s, ws[..|ws| - 1], u);
      var w := ws[|ws| - 1];
      GrowMembers(s, w, adj(End(s, w)), u);
    }
  }

  lemma KeptMembers(keep: Rule, ws: seq<Walk>, u: Walk)
    ensures u in Kept(keep, ws) <==> u in ws && keep(u)
  {
    if ws != [] {
      SplitLast(ws);
      KeptMembers(keep, ws[..|ws| - 1], u);
    }
  }

  ghost predicate OnLevel(adj: Adjacency, keep: Rule, s: Id, k: nat, u: Walk) {
    && |u| == k && IsWalk(adj, s, u) && Simple(s, u)
    && forall j :: 1 <= j < k ==> keep(u[..j])
  }

  lemma OnLevelSnoc(adj: Adjacency, keep: Rule, s: Id, w: Walk, h: Hop)
    requires keep([])
    ensures OnLevel(adj, keep, s, |w| + 1, w + [h]) <==>
            OnLevel(adj, keep, s, |w|, w) && keep(w)
            && h in adj(End(s, w)) && h.entity.id !in Visited(s, w)
  {
    var u := w + [h];
    WalkSnoc(adj, s, w, h);
    SimpleSnoc(s, w, h);
    assert w[..|w|] == w;
    assert forall j :: 0 <= j <= |w| ==> u[..j] == w[..j];
    if OnLevel(adj, keep, s, |u|, u) && w != [] {
      assert keep(u[..|w|]);
    }
  }

  lemma LevelStep(adj: Adjacency, keep: Rule, s: Id, k: nat, w: Walk, h: Hop)
    requires k > 0
    ensures w + [h] in Level(adj, keep, s, k) <==>
            w in Level(adj, keep, s, k - 1) && keep(w)
            && h in adj(End(s, w)) && h.entity.id !in Visited(s, w)
  {
    var u := w + [h];
    var ws := Level(adj, keep, s, k - 1);
    GrowAllMembers(adj, s, Kept(keep, ws), u);
    KeptMembers(keep, ws, w);
    assert u[..|u| - 1] == w;
  }

  lemma LevelMembersStep(adj: Adjacency, keep: Rule, s: Id, k: nat, w: Walk, h: Hop)
    requires keep([])
    requires k > 0
    requires w in Level(adj, keep, s, k - 1) <==> OnLevel(adj, keep, s, k - 1, w)
    ensures w + [h] in Level(adj, keep, s, k) <==> OnLevel(adj, keep, s, k, w + [h])
  {
    LevelStep(adj, keep, s, k, w, h);
    if |w| == k - 1 { OnLevelSnoc(adj, keep, s, w, h); }
  }

  lemma RootOnLevel(adj: Adjacency, keep: Rule, s: Id, u: Walk)
    ensures u in Level(adj, keep, s, 0) <==> OnLevel(adj, keep, s, 0, u)
  {}

  lemma EmptyOffLevel(adj: Adjacency, keep: Rule, s: Id, k: nat, u: Walk)
    requires k > 0 && u == []
    ensures u !in Level(adj, keep, s, k) && !OnLevel(adj, keep, s, k, u)
  {
    GrowAllMembers(adj, s, Kept(keep, Level(adj, keep, s, k - 1)), u);
  }

  /** Level k holds exactly the simple walks of length k whose proper prefixes were all continued. */
  lemma {:induction false} LevelMembers(adj: Adjacency, keep: Rule, s: Id, k: nat, u: Walk)
    requires keep([])
    ensures u in Level(adj, keep, s, k) <==> OnLevel(adj, keep, s, k, u)
  {
    if k == 0 {
      RootOnLevel(adj, keep, s, u);
    } else if u == [] {
      EmptyOffLevel(adj, keep, s, k, u);
    } else {
      var w, h := u[..|u| - 1], u[|u| - 1];
      SplitLast(u);
      LevelMembers(adj, keep, s, k - 1, w);
      LevelMembersStep(adj, keep, s, k, w, h);
    }
  }

  lemma {:induction false} UpToMembers(adj: Adjacency, keep: Rule, s: Id, k: int, u: Walk)
    requires keep([])
    ensures u in UpTo(adj, keep, s, k) <==> 1 <= |u| <= k && OnLevel(adj, keep, s, |u|, u)
  {
    if k > 0 {
      UpToMembers(adj, keep, s, k - 1, u);
      LevelMembers(adj, keep, s, k, u);
    }
  }

  // ------------------------------------------------------------------ no path twice

  lemma GrowDistinct(s: Id, w: Walk, hops: seq<Hop>)
    requires HopsDistinct(hops, End(s, w))
    ensures Distinct(Grow(s, w, hops))
  {
    if hops != [] {
      var n := |hops| - 1;
      var h := hops[n];
      assert HopsDistinct(hops[..n], End(s, w));
      GrowDistinct(s, w, hops[..n]);
      if h.entity.id !in Visited(s, w) {
        GrowMembers(s, w, hops[..n], w + [h]);
        assert Visited(s, w)[|w|] == End(s, w);
        assert h !in hops[..n];
        DistinctSnoc(Grow(s, w, hops[..n]), w + [h]);
      }
    }
  }

  ghost predicate HopsDistinctEverywhere(adj: Adjacency) {
    forall v :: HopsDistinct(adj(v), v)
  }

  lemma GrowAllDistinct(adj: Adjacency, s: Id, ws: seq<Walk>)
    requires Distinct(ws) && HopsDistinctEverywhere(adj)
    ensures Distinct(GrowAll(adj, s, ws))
  {
    if ws != [] {
      var n := |ws| - 1;
      var w := ws[n];
      GrowAllDistinct(adj, s, ws[..n]);
      GrowDistinct(s, w, adj(End(s, w)));
      forall u | u in GrowAll(adj, s, ws[..n]) ensures u !in Grow(s, w, adj(End(s, w))) {
        GrowAllMembers(adj, s, ws[..n], u);
        GrowMembers(s, w, adj(End(s, w)), u);
      }
      DistinctConcat(GrowAll(adj, s, ws[..n]), Grow(s, w, adj(End(s, w))));
    }
  }

  lemma KeptDistinct(keep: Rule, ws: seq<Walk>)
    requires Distinct(ws)
    ensures Distinct(Kept(keep, ws))
  {
    if ws != [] {
      var n := |ws| - 1;
      KeptDistinct(keep, ws[..n]);
      KeptMembers(keep, ws[..n], ws[n]);
      DistinctSnoc(Kept(keep, ws[..n]), ws[n]);
    }
  }

  lemma {:induction false} LevelDistinct(adj: Adjacency, keep: Rule, s: Id, k: nat)
    requires HopsDistinctEverywhere(adj)
    ensures Distinct(Level(adj, keep, s, k))
  {
    if k > 0 {
      LevelDistinct(adj, keep, s, k - 1);
      KeptDistinct(keep, Level(adj, keep, s, k - 1));
      GrowAllDistinct(adj, s, Kept(keep, Level(adj, keep, s, k - 1)));
    }
  }

  lemma Shorter(adj: Adjacency, keep: Rule, s: Id, k: nat)
    requires keep([])
    requires k > 0
    ensures forall u :: u in UpTo(adj, keep, s, k - 1) ==> |u| < k
    ensures forall u :: u in Level(adj, keep, s, k) ==> |u| == k
  {
    forall u | u in UpTo(adj, keep, s, k - 1) ensures |u| < k { UpToMembers(adj, keep, s, k - 1, u); }
    forall u | u in Level(adj, keep, s, k) ensures |u| == k { LevelMembers(adj, keep, s, k, u); }
  }

  ghost predicate ByLength(ws: seq<Walk>) {
    forall i, j :: 0 <= i < j < |ws| ==> |ws[i]| <= |ws[j]|
  }

  lemma ByLengthConcat(a: seq<Walk>, b: seq<Walk>, k: nat)
    requires ByLength(a) && (forall u :: u in a ==> |u| < k) && (forall u :: u in b ==> |u| == k)
    ensures ByLength(a + b)
  {
    var c := a + b;
    forall i, j | 0 <= i < j < |c| ensures |c[i]| <= |c[j]| {
      if j < |a| {
        assert c[i] == a[i] && c[j] == a[j];
      } else {
        assert c[j] in b;
        if i < |a| { assert c[i] in a; } else { assert c[i] in b; }
      }
    }
  }

  /** No path is reported twice. */
  lemma {:induction false} UpToDistinct(adj: Adjacency, keep: Rule, s: Id, k: int)
    requires keep([])
    requires HopsDistinctEverywhere(adj)
    ensures Distinct(UpTo(adj, keep, s, k))
  {
    if k > 0 {
      UpToDistinct(adj, keep, s, k - 1);
      LevelDistinct(adj, keep, s, k);
      Shorter(adj, keep, s, k);
      DistinctConcat(UpTo(adj, keep, s, k - 1), Level(adj, keep, s, k));
    }
  }

  /** Paths come out in non-decreasing length. */
  lemma {:induction false} UpToByLength(adj: Adjacency, keep: Rule, s: Id, k: int)
    requires keep([])
    ensures ByLength(UpTo(adj, keep, s, k))
  {
    if k > 0 {
      UpToByLength(adj, keep, s, k - 1);
      Shorter(adj, keep, s, k);
      ByLengthConcat(UpTo(adj, keep, s, k - 1), Level(adj, keep, s, k), k);
    }
  }

  // ------------------------------------------------------------------ levels that run dry

  lemma LevelDies(adj: Adjacency, keep: Rule, s: Id, k: nat)
    requires k > 0 && Kept(keep, Level(adj, keep, s, k - 1)) == []
    ensures Level(adj, keep, s, k) == [] && Kept(keep, Level(adj, keep, s, k)) == []
  {}

  lemma UpToSnoc(adj: Adjacency, keep: Rule, s: Id, k: nat)
    ensures UpTo(adj, keep, s, k) + Level(adj, keep, s, k + 1) == UpTo(adj, keep, s, k + 1)
  {}

  lemma NoLevels(adj: Adjacency, keep: Rule, s: Id, m: int)
    ensures m <= 0 ==> UpTo(adj, keep, s, m) == UpTo(adj, keep, s, 0)
  {}

  lemma LevelGrown(adj: Adjacency, keep: Rule, s: Id, k: nat)
    ensures GrowAll(adj, s, Kept(keep, Level(adj, keep, s, k))) == Level(adj, keep, s, k + 1)
  {}

  lemma UpToEmptyLevel(adj: Adjacency, keep: Rule, s: Id, m: nat)
    requires m > 0 && Level(adj, keep, s, m) == []
    ensures UpTo(adj, keep, s, m) == UpTo(adj, keep, s, m - 1)
  {}

  lemma {:induction false} LevelsDie(adj: Adjacency, keep: Rule, s: Id, k: nat, m: nat)
    requires Kept(keep, Level(adj, keep, s, k)) == [] && m >= k
    ensures UpTo(adj, keep, s, m) == UpTo(adj, keep, s, k)
    ensures Kept(keep, Level(adj, keep, s, m)) == []
  {
    if m > k {
      LevelsDie(adj, keep, s, k, m - 1);
      LevelDiesAt(adj, keep, s, m);
    }
  }

  lemma LevelDiesAt(adj: Adjacency, keep: Rule, s: Id, m: nat)
    requires m > 0 && Kept(keep, Level(adj, keep, s, m - 1)) == []
    ensures UpTo(adj, keep, s, m) == UpTo(adj, keep, s, m - 1) && Kept(keep, Level(adj, keep, s, m)) == []
  {
    LevelDies(adj, keep, s, m);
    UpToEmptyLevel(adj, keep, s, m);
  }

  lemma LevelWalk(adj: Adjacency, keep: Rule, s: Id, k: nat, w: Walk)
    requires keep([])
    requires w in Kept(keep, Level(adj, keep, s, k))
    ensures |w| == k && IsWalk(adj, s, w)
  {
    KeptMembers(keep, Level(adj, keep, s, k), w);
    LevelMembers(adj, keep, s, k, w);
  }

  // ------------------------------------------------------------------ the search's own rule

  ghost function Pruning(adj: Adjacency, s: Id): Rule { w => Continued(adj, s, w) }

  /** The paths `findPaths` enumerates from `s`, in order. */
  ghost function Enumerated(adj: Adjacency, s: Id, maxDepth: int): seq<Walk> {
    UpTo(adj, Pruning(adj, s), s, maxDepth)
  }

  /** The enumeration is exact: a path is in it if and only if it is admissible. */
  lemma EnumeratedIffAdmissible(adj: Adjacency, s: Id, maxDepth: int, u: Walk)
    ensures u in Enumerated(adj, s, maxDepth) <==> Admissible(adj, s, maxDepth, u)
  {
    UpToMembers(adj, Pruning(adj, s), s, maxDepth, u);
  }

  /** No path is enumerated twice, and lengths never decrease. */
  lemma EnumeratedOnceByLength(adj: Adjacency, s: Id, maxDepth: int)
    ensures ByLength(Enumerated(adj, s, maxDepth))
    ensures HopsDistinctEverywhere(adj) ==> Distinct(Enumerated(adj, s, maxDepth))
  {
    UpToByLength(adj, Pruning(adj, s), s, maxDepth);
    if HopsDistinctEverywhere(adj) { UpToDistinct(adj, Pruning(adj, s), s, maxDepth); }
  }

  lemma ShortestAdmissible(adj: Adjacency, s: Id, w: Walk)
    requires IsWalk(adj, s, w) && IsDistance(adj, s, End(s, w), |w|)
    ensures OnLevel(adj, Pruning(adj, s), s, |w|, w)
  {
    ShortestSimple(adj, s, w);
    forall j | 1 <= j < |w| ensures Pruning(adj, s)(w[..j]) {
      ShortestContinued(adj, s, w, j);
    }
  }

  /** Every vertex at distance 1..maxDepth is reached by a path of exactly that length. */
  lemma ReachedAtDistance(adj: Adjacency, s: Id, maxDepth: int, v: Id, d: nat) returns (w: Walk)
    requires IsDistance(adj, s, v, d) && 1 <= d <= maxDepth
    ensures w in Enumerated(adj, s, maxDepth) && End(s, w) == v && |w| == d
  {
    w :| WalkTo(adj, s, v, w) && |w| == d;
    ShortestAdmissible(adj, s, w);
    UpToMembers(adj, Pruning(adj, s), s, maxDepth, w);
  }
}
