/** Scoring, ranking and selecting ideas: which builds a tick may start. */
module Planner {
  import opened Values
  import opened Sorting
  import PreSort

  type Id = string

  // ------------------------------------------------------------------ scores

  /** A declared rubric: numeric fields, and the nested `features` of the QDW rubric. */
  datatype Rubric = Unscored | Rubric(fields: map<string, real>, features: Option<map<string, real>>)

  /** The canonical six fields, each between 0 and 3. */
  datatype Canonical = Canonical(delta: real, pain: real, costCollapse: real, composability: real,
                                 evidence: real, buildLeverage: real)

  function Clamp(lo: real, hi: real, v: real): real { if v < lo then lo else if v > hi then hi else v }
  function Clamp03(v: real): real { Clamp(0.0, 3.0, v) }

  function At(m: map<string, real>, k: string): real { if k in m then m[k] else 0.0 }
  function Feature(m: map<string, real>, k: string): real { Clamp(0.0, 1.0, At(m, k)) }

  function Average1(m: map<string, real>, k: string): real { At(m, k) }

  /** Mean of the fields that are present. */
  function Average2(m: map<string, real>, j: string, k: string): real {
    if j in m && k in m then (m[j] + m[k]) / 2.0 else At(m, j) + At(m, k)
  }

  function Clamped(c: Canonical): Canonical {
    Canonical(Clamp03(c.delta), Clamp03(c.pain), Clamp03(c.costCollapse), Clamp03(c.composability),
              Clamp03(c.evidence), Clamp03(c.buildLeverage))
  }

  function FromVenturelab(s: map<string, real>): Canonical {
    Canonical(Average1(s, "market_timing") / 3.33, Average2(s, "pain_severity", "wtp") / 3.33,
              Average1(s, "mvp_buildability") / 3.33, Average2(s, "api_fit", "standards") / 3.33,
              Average1(s, "whitespace") / 3.33, Average2(s, "expansion", "reg_simplicity") / 3.33)
  }

  function FromQdw(f: map<string, real>): Canonical {
    Canonical((Feature(f, "need") + Feature(f, "actionability")) / 2.0 * 3.0, Feature(f, "need") * 3.0,
              Feature(f, "low_integration_cost") * 3.0, Feature(f, "low_competition") * 3.0,
              if Feature(f, "acceptance_ok") != 0.0 || Feature(f, "real_implementation_ok") != 0.0 then 2.0
              else Feature(f, "low_competition"),
              Feature(f, "low_integration_cost") * 3.0)
  }

  function Native(s: map<string, real>): Canonical {
    Canonical(At(s, "delta"), At(s, "pain"), At(s, "cost_collapse"), At(s, "composability"),
              At(s, "evidence"), At(s, "build_leverage"))
  }

  const SCORE_FIELDS: set<string> := {"delta", "pain", "cost_collapse", "composability", "evidence", "build_leverage"}

  /** The six fields before clamping; an unknown rubric has none. */
  function Raw(r: Rubric, source: string): Option<Canonical> {
    if r.Unscored? then None
    else if source == "venturelab" || ("market_timing" in r.fields && "wtp" in r.fields)
    then Some(FromVenturelab(r.fields))
    else if r.features.Some? || "need" in r.fields
    then Some(FromQdw(if r.features.Some? then r.features.value else map[]))
    else if r.fields.Keys * SCORE_FIELDS != {} then Some(Native(r.fields))
    else None
  }

  /** Every known source maps to the canonical scale. */
  function Normalize(r: Rubric, source: string): Option<Canonical> {
    match Raw(r, source)
    case None => None
    case Some(c) => Some(Clamped(c))
  }

  function Sum(c: Canonical): real {
    c.delta + c.pain + c.costCollapse + c.composability + c.evidence + c.buildLeverage
  }

  function BaseTotal(r: Rubric, source: string): real {
    match Normalize(r, source)
    case None => 0.0
    case Some(c) => Sum(c)
  }

  /** +0.5 each for declared parents, the H1 parent, and a limit class the registry knows. */
  function AlignmentBonus(parents: seq<string>, limitClasses: seq<string>, known: set<string>): real {
    if parents == [] then 0.0
    else 0.5 + (if "H1_chatgpt_doomed" in parents then 0.5 else 0.0)
             + (if exists i :: 0 <= i < |limitClasses| && limitClasses[i] in known then 0.5 else 0.0)
  }

  datatype Idea = Idea(id: Id, rubric: Rubric, source: string, parents: seq<string>, limitClasses: seq<string>)

  /** `evaluation.total`: the canonical sum plus the alignment bonus. */
  function Total(i: Idea, known: set<string>): real {
    BaseTotal(i.rubric, i.source) + AlignmentBonus(i.parents, i.limitClasses, known)
  }

  /** No rubric invents quality: the total is between 0 and 19.5, and an unknown rubric has only its bonus. */
  lemma TotalBounds(i: Idea, known: set<string>)
    ensures 0.0 <= Total(i, known) <= 19.5
    ensures Normalize(i.rubric, i.source).None? ==> Total(i, known) <= 1.5
  {
    BaseBounds(i.rubric, i.source);
    BonusBounds(i.parents, i.limitClasses, known);
  }

  lemma BonusBounds(parents: seq<string>, limitClasses: seq<string>, known: set<string>)
    ensures 0.0 <= AlignmentBonus(parents, limitClasses, known) <= 1.5
  {}

  lemma BaseBounds(r: Rubric, source: string)
    ensures 0.0 <= BaseTotal(r, source) <= 18.0
    ensures Normalize(r, source).None? ==> BaseTotal(r, source) == 0.0
  {
    var raw := Raw(r, source);
    if raw.Some? { ClampedSum(raw.value); }
  }

  lemma ClampedSum(c: Canonical)
    ensures 0.0 <= Sum(Clamped(c)) <= 18.0
  {}

  // ------------------------------------------------------------------ ranking

  datatype Ranked = Ranked(idea: Idea, total: real)

  type IdOrder = (Id, Id) -> bool

  /** The collation of ids: total and transitive, but different ids may compare as equal. */
  ghost predicate Collation(le: IdOrder) { TotalPreorder(le) }

  /** Higher totals first, then by id. */
  function Before(le: IdOrder): (Ranked, Ranked) -> bool {
    (a: Ranked, b: Ranked) => a.total > b.total || (a.total == b.total && le(a.idea.id, b.idea.id))
  }

  function ScoreWith(known: set<string>): Idea -> Ranked { (i: Idea) => Ranked(i, Total(i, known)) }

  function Scored(ideas: seq<Idea>, known: set<string>): seq<Ranked> {
    Mapped(ScoreWith(known), ideas)
  }

  function Rank(ideas: seq<Idea>, known: set<string>, le: IdOrder): seq<Ranked> {
    Sort(Before(le), Scored(ideas, known))
  }

  function Worthy(s: seq<Ranked>, minScore: real): seq<Ranked> {
    if s == [] then []
    else Worthy(s[..|s| - 1], minScore) + if s[|s| - 1].total >= minScore then [s[|s| - 1]] else []
  }

  function Min(a: int, b: int): int { if a < b then a else b }
  function Max(a: int, b: int): int { if a < b then b else a }

  /** `slice(0, n)`: a negative bound counts from the end. */
  function Slice<T>(s: seq<T>, n: int): seq<T> {
    if n >= 0 then s[..Min(n, |s|)] else s[..Max(0, |s| + n)]
  }

  function Capacity(maxBuilding: int, active: nat): nat { Max(0, maxBuilding - active) }

  function Select(ideas: seq<Idea>, known: set<string>, le: IdOrder, minScore: real,
                  limit: int, active: nat, maxBuilding: int): seq<Ranked> {
    Slice(Worthy(Rank(ideas, known, le), minScore), Min(limit, Capacity(maxBuilding, active)))
  }

  // ------------------------------------------------------------------ what selection guarantees

  ghost predicate DistinctIds(ideas: seq<Idea>) {
    forall i, j :: 0 <= i < j < |ideas| ==> ideas[i].id != ideas[j].id
  }

  lemma BeforePreorder(le: IdOrder)
    requires Collation(le)
    ensures TotalPreorder(Before(le))
  {
    forall x, y ensures Before(le)(x, y) || Before(le)(y, x) {
      assert le(x.idea.id, y.idea.id) || le(y.idea.id, x.idea.id);
    }
    forall x, y, z | Before(le)(x, y) && Before(le)(y, z) ensures Before(le)(x, z) {
      assert le(x.idea.id, y.idea.id) && le(y.idea.id, z.idea.id) ==> le(x.idea.id, z.idea.id);
    }
  }

  /** Neither of two different candidates comes before the other. */
  predicate Tied(x: Idea, y: Idea, known: set<string>, le: IdOrder) {
    x != y && Total(x, known) == Total(y, known) && le(x.id, y.id) && le(y.id, x.id)
  }

  ghost predicate NoTies(ideas: seq<Idea>, known: set<string>, le: IdOrder) {
    forall x, y :: x in ideas && y in ideas ==> !Tied(x, y, known, le)
  }

  lemma ScoredMembers(ideas: seq<Idea>, known: set<string>, r: Ranked)
    ensures r in Scored(ideas, known) <==> r.idea in ideas && r.total == Total(r.idea, known)
  {
    if r.idea in ideas && r.total == Total(r.idea, known) {
      var i :| 0 <= i < |ideas| && ideas[i] == r.idea;
      assert Scored(ideas, known)[i] == r;
    }
  }

  lemma RankTiesAreEqual(a: seq<Idea>, known: set<string>, le: IdOrder)
    requires NoTies(a, known, le)
    ensures TiesAreEqual(Before(le), Rank(a, known, le))
  {
    var before, s := Before(le), Scored(a, known);
    SortBag(before, s);
    forall x, y | x in Rank(a, known, le) && y in Rank(a, known, le) && before(x, y) && before(y, x) ensures x == y {
      assert x in multiset(Rank(a, known, le)) && y in multiset(Rank(a, known, le));
      assert x in multiset(s) && y in multiset(s);
      ScoredMembers(a, known, x);
      ScoredMembers(a, known, y);
      assert !Tied(x.idea, y.idea, known, le);
    }
  }

  /** Without ties the ranking depends on the candidates only, not on their order. */
  lemma RankIgnoresOrder(a: seq<Idea>, b: seq<Idea>, known: set<string>, le: IdOrder)
    requires Collation(le) && NoTies(a, known, le) && multiset(a) == multiset(b)
    ensures Rank(a, known, le) == Rank(b, known, le)
  {
    var before := Before(le);
    var sa, sb := Scored(a, known), Scored(b, known);
    BeforePreorder(le);
    SortSorted(before, sa);
    SortSorted(before, sb);
    SortBag(before, sa);
    SortBag(before, sb);
    MappedBag(ScoreWith(known), a, b);
    RankTiesAreEqual(a, known, le);
    SortedUnique(before, Sort(before, sa), Sort(before, sb));
  }

  /** Tied candidates are ranked as they come. */
  lemma TiesFollowInput(x: Idea, y: Idea, rest: seq<Idea>, known: set<string>, le: IdOrder)
    requires Collation(le) && Tied(x, y, known, le)
    ensures Rank([x, y] + rest, known, le) != Rank([y, x] + rest, known, le)
  {
    var before, score := Before(le), ScoreWith(known);
    var sx, sy, tail := score(x), score(y), Scored(rest, known);
    BeforePreorder(le);
    assert Scored([x, y] + rest, known) == [sx] + ([sy] + tail);
    assert Scored([y, x] + rest, known) == [sy] + ([sx] + tail);
    SortIsStable(before, [sx] + ([sy] + tail), sx);
    SortIsStable(before, [sy] + ([sx] + tail), sx);
    TiesConcat(before, sx, [sx], [sy] + tail);
    TiesConcat(before, sx, [sy], [sx] + tail);
    TiesSnoc(before, sx, [], sx);
    TiesSnoc(before, sx, [], sy);
    assert [] + [sx] == [sx] && [] + [sy] == [sy];
    assert Ties(before, sx, [sx] + ([sy] + tail))[0] == sx;
    assert Ties(before, sx, [sy] + ([sx] + tail))[0] == sy;
  }

  lemma OneToTheFront(a: seq<Idea>, x: Idea) returns (rest: seq<Idea>)
    requires x in a
    ensures multiset(rest) + multiset{x} == multiset(a)
    ensures forall y :: y in a && y != x ==> y in rest
  {
    var i :| 0 <= i < |a| && a[i] == x;
    rest := a[..i] + a[i + 1..];
    RemoveAt(a, i);
    assert x in multiset(a);
    forall y | y in a && y != x ensures y in rest {
      assert y in multiset(a);
      assert y in multiset(rest);
    }
  }

  lemma BagOfTwo(x: Idea, y: Idea, rest: seq<Idea>)
    ensures multiset([x, y] + rest) == multiset(rest) + multiset{y} + multiset{x}
  {}

  /** Two different members can be brought to the front. */
  lemma ToTheFront(a: seq<Idea>, x: Idea, y: Idea) returns (rest: seq<Idea>)
    requires x in a && y in a && x != y
    ensures multiset([x, y] + rest) == multiset(a) && multiset([y, x] + rest) == multiset(a)
  {
    var b := OneToTheFront(a, x);
    rest := OneToTheFront(b, y);
    BagOfTwo(x, y, rest);
    BagOfTwo(y, x, rest);
  }

  /** The condition is exact: every order of the candidates gives one ranking if and only if no two of them tie. */
  lemma RankIgnoresOrderIff(a: seq<Idea>, known: set<string>, le: IdOrder)
    requires Collation(le)
    ensures NoTies(a, known, le) <==>
              forall b :: multiset(a) == multiset(b) ==> Rank(a, known, le) == Rank(b, known, le)
  {
    if NoTies(a, known, le) {
      forall b | multiset(a) == multiset(b) ensures Rank(a, known, le) == Rank(b, known, le) {
        RankIgnoresOrder(a, b, known, le);
      }
    } else {
      var x, y :| x in a && y in a && Tied(x, y, known, le);
      var rest := ToTheFront(a, x, y);
      TiesFollowInput(x, y, rest, known, le);
      assert Rank(a, known, le) != Rank([x, y] + rest, known, le) || Rank(a, known, le) != Rank([y, x] + rest, known, le);
    }
  }

  /**
   * Sorting the candidates by `p` before ranking them changes the ranking exactly when, of some two tied
   * candidates, the later one goes before the earlier by `p`.
   */
  lemma RankPreSortedIff(p: (Idea, Idea) -> bool, a: seq<Idea>, known: set<string>, le: IdOrder)
    requires Collation(le) && TotalPreorder(p)
    ensures Rank(Sort(p, a), known, le) == Rank(a, known, le) <==>
              forall i, j :: 0 <= i < j < |a| && Tied(a[i], a[j], known, le) ==> p(a[i], a[j])
  {
    var score, before := ScoreWith(known), Before(le);
    var order := PreSort.Through(score, before);
    BeforePreorder(le);
    assert TotalPreorder(order) by { ThroughPreorder(known, le); }
    PreSort.SortMapped(score, before, a);
    PreSort.SortMapped(score, before, Sort(p, a));
    PreSort.MappedInjective(score, Sort(order, Sort(p, a)), Sort(order, a));
    PreSort.PreSortIff(p, order, a);
    forall x, y ensures PreSort.Tie(order, x, y) <==> x == y || Tied(x, y, known, le) { TieIsTied(x, y, known, le); }
    assert forall x :: p(x, x);
  }

  lemma ThroughPreorder(known: set<string>, le: IdOrder)
    requires Collation(le)
    ensures TotalPreorder(PreSort.Through(ScoreWith(known), Before(le)))
  {
    var score, before := ScoreWith(known), Before(le);
    var order := PreSort.Through(score, before);
    BeforePreorder(le);
    forall x, y ensures order(x, y) || order(y, x) { assert before(score(x), score(y)) || before(score(y), score(x)); }
    forall x, y, z | order(x, y) && order(y, z) ensures order(x, z) {
      assert before(score(x), score(y)) && before(score(y), score(z));
    }
  }

  lemma TieIsTied(x: Idea, y: Idea, known: set<string>, le: IdOrder)
    requires Collation(le)
    ensures PreSort.Tie(PreSort.Through(ScoreWith(known), Before(le)), x, y) <==> x == y || Tied(x, y, known, le)
  {
    assert le(x.id, x.id) || le(x.id, x.id);
  }

  lemma SelectIgnoresOrder(a: seq<Idea>, b: seq<Idea>, known: set<string>, le: IdOrder, minScore: real,
                           limit: int, active: nat, maxBuilding: int)
    requires Collation(le) && NoTies(a, known, le) && multiset(a) == multiset(b)
    ensures Select(a, known, le, minScore, limit, active, maxBuilding)
         == Select(b, known, le, minScore, limit, active, maxBuilding)
  {
    RankIgnoresOrder(a, b, known, le);
  }

  lemma {:induction false} AllWorthy(s: seq<Ranked>)
    requires forall r :: r in s ==> r.total >= 0.0
    ensures Worthy(s, 0.0) == s
  {
    if s != [] {
      SplitLast(s);
      AllWorthy(s[..|s| - 1]);
    }
  }

  /** With room for all and no threshold to miss, the selection is the ranking. */
  lemma SelectAll(a: seq<Idea>, known: set<string>, le: IdOrder)
    ensures Select(a, known, le, 0.0, |a|, 0, |a|) == Rank(a, known, le)
  {
    var s := Scored(a, known);
    SortBag(Before(le), s);
    assert |Rank(a, known, le)| == |multiset(Rank(a, known, le))| == |multiset(s)| == |a|;
    forall r | r in Rank(a, known, le) ensures r.total >= 0.0 {
      assert r in multiset(Rank(a, known, le));
      assert r in multiset(s);
      ScoredMembers(a, known, r);
      TotalBounds(r.idea, known);
    }
    AllWorthy(Rank(a, known, le));
  }

  /** For selections too: no order of the candidates matters, at any limit and threshold, if and only if no two tie. */
  lemma SelectIgnoresOrderIff(a: seq<Idea>, known: set<string>, le: IdOrder)
    requires Collation(le)
    ensures NoTies(a, known, le) <==>
              forall b, minScore, limit, active, maxBuilding :: multiset(a) == multiset(b) ==>
                Select(a, known, le, minScore, limit, active, maxBuilding)
                == Select(b, known, le, minScore, limit, active, maxBuilding)
  {
    if NoTies(a, known, le) {
      forall b, minScore, limit, active, maxBuilding | multiset(a) == multiset(b)
        ensures Select(a, known, le, minScore, limit, active, maxBuilding)
             == Select(b, known, le, minScore, limit, active, maxBuilding)
      {
        SelectIgnoresOrder(a, b, known, le, minScore, limit, active, maxBuilding);
      }
    } else {
      RankIgnoresOrderIff(a, known, le);
      var b :| multiset(a) == multiset(b) && Rank(a, known, le) != Rank(b, known, le);
      assert |a| == |multiset(a)| == |multiset(b)| == |b|;
      SelectAll(a, known, le);
      SelectAll(b, known, le);
      assert Select(a, known, le, 0.0, |a|, 0, |a|) != Select(b, known, le, 0.0, |a|, 0, |a|);
    }
  }

  lemma {:induction false} WorthyMembers(s: seq<Ranked>, minScore: real, x: Ranked)
    ensures x in Worthy(s, minScore) <==> x in s && x.total >= minScore
  {
    if s != [] {
      WorthyMembers(s[..|s| - 1], minScore, x);
      SplitLast(s);
    }
  }

  /** Every selected idea is a candidate that meets the threshold. */
  lemma SelectedWorthy(ideas: seq<Idea>, known: set<string>, le: IdOrder, minScore: real,
                       limit: int, active: nat, maxBuilding: int, i: nat)
    requires i < |Select(ideas, known, le, minScore, limit, active, maxBuilding)|
    ensures var x := Select(ideas, known, le, minScore, limit, active, maxBuilding)[i];
            x.idea in ideas && x.total == Total(x.idea, known) && x.total >= minScore
  {
    var s := Scored(ideas, known);
    var x := Select(ideas, known, le, minScore, limit, active, maxBuilding)[i];
    assert x in Worthy(Rank(ideas, known, le), minScore);
    WorthyMembers(Rank(ideas, known, le), minScore, x);
    SortBag(Before(le), s);
    assert x in multiset(Rank(ideas, known, le));
    assert x in multiset(s);
    var j :| 0 <= j < |s| && s[j] == x;
  }

  ghost predicate DistinctRanked(s: seq<Ranked>) {
    forall i, j :: 0 <= i < j < |s| ==> s[i].idea.id != s[j].idea.id
  }

  lemma CountAt(a: seq<Idea>, i: nat)
    requires i < |a|
    ensures multiset(a)[a[i]] == 1 + multiset(a[..i])[a[i]] + multiset(a[i + 1..])[a[i]]
  {
    assert a == a[..i] + ([a[i]] + a[i + 1..]);
  }

  /** Distinct ids stay distinct in any order. */
  lemma DistinctPermuted(a: seq<Idea>, b: seq<Idea>)
    requires DistinctIds(a) && multiset(a) == multiset(b)
    ensures DistinctIds(b)
  {
    forall i, j | 0 <= i < j < |b| ensures b[i].id != b[j].id {
      assert b[i] in multiset(a) && b[j] in multiset(a);
      var p :| 0 <= p < |a| && a[p] == b[i];
      var q :| 0 <= q < |a| && a[q] == b[j];
      CountAt(a, p);
      CountAt(b, j);
      assert b[..j][i] == b[i];
      assert b[i] in multiset(b[..j]);
      OnceOnly(a, p);
      assert p != q;
    }
  }

  lemma OnceOnly(a: seq<Idea>, p: nat)
    requires DistinctIds(a) && p < |a|
    ensures multiset(a)[a[p]] == 1
  {
    CountAt(a, p);
    assert a[p] !in a[..p] && a[p] !in a[p + 1..];
  }

  /** Among distinct candidates no idea is selected twice. */
  lemma SelectedDistinct(ideas: seq<Idea>, known: set<string>, le: IdOrder, minScore: real,
                         limit: int, active: nat, maxBuilding: int)
    requires DistinctIds(ideas)
    ensures DistinctRanked(Select(ideas, known, le, minScore, limit, active, maxBuilding))
  {
    var s := Scored(ideas, known);
    InsertsDistinct(le, s);
    WorthyDistinct(Rank(ideas, known, le), minScore);
  }

  lemma {:induction false} InsertsDistinct(le: IdOrder, s: seq<Ranked>)
    requires DistinctRanked(s)
    ensures DistinctRanked(Sort(Before(le), s))
  {
    if s != [] {
      var n := |s| - 1;
      InsertsDistinct(le, s[..n]);
      SortBag(Before(le), s[..n]);
      forall x | x in Sort(Before(le), s[..n]) ensures x.idea.id != s[n].idea.id {
        assert x in multiset(Sort(Before(le), s[..n]));
        var i :| 0 <= i < n && s[..n][i] == x;
      }
      InsertDistinct(le, Sort(Before(le), s[..n]), s[n]);
    }
  }

  lemma {:induction false} InsertDistinct(le: IdOrder, s: seq<Ranked>, x: Ranked)
    requires DistinctRanked(s) && forall y :: y in s ==> y.idea.id != x.idea.id
    ensures DistinctRanked(InsertLast(Before(le), s, x))
  {
    if s != [] && !Before(le)(s[|s| - 1], x) {
      var n := |s| - 1;
      InsertDistinct(le, s[..n], x);
      var r := InsertLast(Before(le), s[..n], x);
      InsertLastBag(Before(le), s[..n], x);
      forall y | y in r ensures y.idea.id != s[n].idea.id {
        assert y in multiset(r);
        if y != x { assert y in multiset(s[..n]); }
      }
    }
  }

  lemma {:induction false} WorthyDistinct(s: seq<Ranked>, minScore: real)
    requires DistinctRanked(s)
    ensures DistinctRanked(Worthy(s, minScore))
  {
    if s != [] {
      var n := |s| - 1;
      WorthyDistinct(s[..n], minScore);
      forall y | y in Worthy(s[..n], minScore) ensures y.idea.id != s[n].idea.id {
        WorthyMembers(s[..n], minScore, y);
      }
    }
  }

  /** The capacity bound holds for every ranking exactly when the limit is not negative. */
  lemma CapacityIffLimit(limit: int, capacity: nat)
    ensures limit >= 0 <==> forall s: seq<Ranked> :: |Slice(s, Min(limit, capacity))| <= capacity
  {
    if limit < 0 {
      var x := Ranked(Idea("", Unscored, "", [], []), 0.0);
      var s := seq(capacity + 1 - limit, _ => x);
      assert |Slice(s, Min(limit, capacity))| == capacity + 1;
    }
  }
}
