/** What the planner's numbers and its choice mean: which idea gets which total, and that the best come first. */
module PlannerChoice {
  import opened Values
  import opened Sorting
  import opened Planner

  // ------------------------------------------------------------------ totals, from the rubric's own fields

  ghost predicate Within(m: map<string, real>, keys: set<string>, hi: real) {
    forall k :: k in keys ==> 0.0 <= At(m, k) <= hi
  }

  /** A venture rubric: said to be one, or known by two of its fields. */
  predicate IsVenture(i: Idea)
    requires i.rubric.Rubric?
  {
    i.source == "venturelab" || ("market_timing" in i.rubric.fields && "wtp" in i.rubric.fields)
  }

  /** A feature rubric, if it is not a venture rubric. */
  predicate IsFeatured(i: Idea)
    requires i.rubric.Rubric?
  {
    i.rubric.features.Some? || "need" in i.rubric.fields
  }

  /** What the rubric is worth, without the bonus. */
  function Worth(i: Idea, known: set<string>): real {
    Total(i, known) - AlignmentBonus(i.parents, i.limitClasses, known)
  }

  /** Any other rubric, in range, is worth the sum of its six fields. */
  lemma NativeTotal(i: Idea, known: set<string>)
    requires i.rubric.Rubric? && !IsVenture(i) && !IsFeatured(i)
    requires Within(i.rubric.fields, {"delta", "pain", "cost_collapse", "composability", "evidence", "build_leverage"}, 3.0)
    ensures var s := i.rubric.fields;
            Worth(i, known) == At(s, "delta") + At(s, "pain") + At(s, "cost_collapse") + At(s, "composability")
                               + At(s, "evidence") + At(s, "build_leverage")
  {
    var s := i.rubric.fields;
    assert {"delta", "pain", "cost_collapse", "composability", "evidence", "build_leverage"} == SCORE_FIELDS;
    if s.Keys * SCORE_FIELDS == {} { assert forall k :: k in SCORE_FIELDS ==> k !in s.Keys * SCORE_FIELDS; }
  }

  const VENTURE_FIELDS: set<string> :=
    {"market_timing", "pain_severity", "wtp", "mvp_buildability", "api_fit", "standards", "whitespace", "expansion",
     "reg_simplicity"}

  /** The mean of those of two fields that are there. */
  function Mean(s: map<string, real>, j: string, k: string): real {
    (At(s, j) + At(s, k)) / (if j in s && k in s then 2.0 else 1.0)
  }

  /** A venture rubric with its fields below 9.99: each of six (groups of) fields counts a 3.33rd. */
  lemma VentureTotal(i: Idea, known: set<string>)
    requires i.rubric.Rubric? && IsVenture(i) && Within(i.rubric.fields, VENTURE_FIELDS, 9.99)
    ensures var s := i.rubric.fields;
            Worth(i, known) == (At(s, "market_timing") + Mean(s, "pain_severity", "wtp") + At(s, "mvp_buildability")
                                + Mean(s, "api_fit", "standards") + At(s, "whitespace")
                                + Mean(s, "expansion", "reg_simplicity")) / 3.33
  {
    var s := i.rubric.fields;
    assert forall k :: k in VENTURE_FIELDS ==> 0.0 <= At(s, k) <= 9.99;
  }

  const DECISION_FEATURES: set<string> :=
    {"need", "actionability", "low_integration_cost", "low_competition", "acceptance_ok", "real_implementation_ok"}

  /** A feature rubric with its features between 0 and 1. */
  lemma FeatureTotal(i: Idea, known: set<string>)
    requires i.rubric.Rubric? && !IsVenture(i) && IsFeatured(i)
    requires i.rubric.features.Some? ==> Within(i.rubric.features.value, DECISION_FEATURES, 1.0)
    ensures i.rubric.features.None? ==> Worth(i, known) == 0.0
    ensures i.rubric.features.Some? ==>
              var f := i.rubric.features.value;
              Worth(i, known) == 4.5 * At(f, "need") + 1.5 * At(f, "actionability") + 6.0 * At(f, "low_integration_cost")
                                 + 3.0 * At(f, "low_competition")
                                 + (if At(f, "acceptance_ok") == 0.0 && At(f, "real_implementation_ok") == 0.0
                                    then At(f, "low_competition") else 2.0)
  {}

  /** No rubric, no worth; and what lies outside the scale counts as its nearest end. */
  lemma OutOfScale(i: Idea, known: set<string>)
    ensures i.rubric.Unscored? ==> Worth(i, known) == 0.0
    ensures forall v :: Clamp03(v) == (if v <= 0.0 then 0.0 else if v >= 3.0 then 3.0 else v)
    ensures forall f, k :: Feature(f, k) == (if At(f, k) <= 0.0 then 0.0 else if At(f, k) >= 1.0 then 1.0 else At(f, k))
  {}

  /** The bonus counts three things, the first of which is needed for the others. */
  lemma BonusCounts(parents: seq<string>, limitClasses: seq<string>, known: set<string>)
    ensures var b := AlignmentBonus(parents, limitClasses, known);
            && (b == 0.0 <==> parents == [])
            && (b == 1.5 <==> "H1_chatgpt_doomed" in parents && exists c :: c in limitClasses && c in known)
            && (parents != [] && "H1_chatgpt_doomed" !in parents && (forall c :: c in limitClasses ==> c !in known) <==> b == 0.5)
  {
    assert (exists c :: c in limitClasses && c in known) <==> exists i :: 0 <= i < |limitClasses| && limitClasses[i] in known by {
      if c :| c in limitClasses && c in known {
        var i :| 0 <= i < |limitClasses| && limitClasses[i] == c;
      }
    }
  }

  // ------------------------------------------------------------------ the best first

  /** The ranking: totals fall, and equal totals go by collated id. */
  lemma RankDescends(ideas: seq<Idea>, known: set<string>, le: IdOrder, i: nat, j: nat)
    requires Collation(le) && i < j < |Rank(ideas, known, le)|
    ensures var r := Rank(ideas, known, le);
            r[i].total > r[j].total || (r[i].total == r[j].total && le(r[i].idea.id, r[j].idea.id))
  {
    BeforePreorder(le);
    SortSorted(Before(le), Scored(ideas, known));
    assert Before(le)(Rank(ideas, known, le)[i], Rank(ideas, known, le)[j]);
  }

  lemma RankMembers(ideas: seq<Idea>, known: set<string>, le: IdOrder, x: Ranked)
    ensures x in Rank(ideas, known, le) <==> x.idea in ideas && x.total == Total(x.idea, known)
  {
    SortBag(Before(le), Scored(ideas, known));
    assert x in Rank(ideas, known, le) <==> x in multiset(Rank(ideas, known, le));
    assert x in Scored(ideas, known) <==> x in multiset(Scored(ideas, known));
    ScoredMembers(ideas, known, x);
  }

  ghost predicate Descends(s: seq<Ranked>) { forall i, j :: 0 <= i < j < |s| ==> s[i].total >= s[j].total }

  /** In a falling sequence the worthy ones are the first ones. */
  lemma {:induction false} WorthyFirst(s: seq<Ranked>, minScore: real)
    requires Descends(s)
    ensures Worthy(s, minScore) <= s
    ensures forall i :: 0 <= i < |s| ==> (i < |Worthy(s, minScore)| <==> s[i].total >= minScore)
  {
    if s != [] {
      var n := |s| - 1;
      WorthyFirst(s[..n], minScore);
      SplitLast(s);
      if s[n].total >= minScore {
        assert forall i :: 0 <= i < n ==> s[..n][i].total >= minScore;
        assert n > 0 ==> s[..n][n - 1].total >= minScore;
        assert |Worthy(s[..n], minScore)| == n;
      }
    }
  }

  /** How many candidates reach the threshold. */
  function WorthyCount(ideas: seq<Idea>, known: set<string>, minScore: real): nat {
    if ideas == [] then 0
    else
      var n := |ideas| - 1;
      WorthyCount(ideas[..n], known, minScore) + if Total(ideas[n], known) >= minScore then 1 else 0
  }

  lemma {:induction false} CountWorthy(ideas: seq<Idea>, known: set<string>, minScore: real)
    ensures |Worthy(Scored(ideas, known), minScore)| == WorthyCount(ideas, known, minScore)
  {
    if ideas != [] {
      var n := |ideas| - 1;
      CountWorthy(ideas[..n], known, minScore);
      assert Scored(ideas, known)[..n] == Scored(ideas[..n], known);
      assert Scored(ideas, known)[n] == Ranked(ideas[n], Total(ideas[n], known));
    }
  }

  /** The order of the candidates does not matter for their number. */
  lemma CountOfBag(a: seq<Idea>, b: seq<Idea>, known: set<string>, minScore: real)
    requires multiset(a) == multiset(b)
    ensures WorthyCount(a, known, minScore) == WorthyCount(b, known, minScore)
  {
    CountWorthy(a, known, minScore);
    CountWorthy(b, known, minScore);
    MappedBag(ScoreWith(known), a, b);
    SameWorthySize(Scored(a, known), Scored(b, known), minScore);
  }

  lemma SameWorthySize(s: seq<Ranked>, r: seq<Ranked>, minScore: real)
    requires multiset(s) == multiset(r)
    ensures |Worthy(s, minScore)| == |Worthy(r, minScore)|
  {
    forall x ensures multiset(Worthy(r, minScore))[x] == multiset(Worthy(s, minScore))[x] {
      WorthyBag(r, minScore, x);
      WorthyBag(s, minScore, x);
    }
    assert multiset(Worthy(r, minScore)) == multiset(Worthy(s, minScore));
    assert |Worthy(r, minScore)| == |multiset(Worthy(r, minScore))| == |multiset(Worthy(s, minScore))| == |Worthy(s, minScore)|;
  }

  lemma {:induction false} WorthyBag(s: seq<Ranked>, minScore: real, x: Ranked)
    ensures multiset(Worthy(s, minScore))[x] == if x.total >= minScore then multiset(s)[x] else 0
  {
    if s != [] {
      WorthyBag(s[..|s| - 1], minScore, x);
      SplitLast(s);
    }
  }

  lemma RankWorthyCount(ideas: seq<Idea>, known: set<string>, le: IdOrder, minScore: real)
    ensures |Worthy(Rank(ideas, known, le), minScore)| == WorthyCount(ideas, known, minScore)
  {
    SortBag(Before(le), Scored(ideas, known));
    SameWorthySize(Scored(ideas, known), Rank(ideas, known, le), minScore);
    CountWorthy(ideas, known, minScore);
  }

  /** The selection is the beginning of the ranking, as long as limit, capacity and threshold together allow. */
  lemma SelectIsBeginning(ideas: seq<Idea>, known: set<string>, le: IdOrder, minScore: real,
                          limit: int, active: nat, maxBuilding: int)
    requires Collation(le)
    ensures var sel, w := Select(ideas, known, le, minScore, limit, active, maxBuilding), WorthyCount(ideas, known, minScore);
            && sel <= Rank(ideas, known, le)
            && (limit >= 0 ==> |sel| == Min(limit, Min(if maxBuilding > active then maxBuilding - active else 0, w)))
            && (limit < 0 ==> |sel| == Max(0, w + limit))
  {
    var r := Rank(ideas, known, le);
    forall i, j | 0 <= i < j < |r| ensures r[i].total >= r[j].total { RankDescends(ideas, known, le, i, j); }
    WorthyFirst(r, minScore);
    RankWorthyCount(ideas, known, le, minScore);
  }

  /**
   * No better idea waits: a candidate that reaches the threshold and is left out has no higher total than any
   * selected one, and at equal totals its id comes later.
   */
  lemma NoBetterLeftOut(ideas: seq<Idea>, known: set<string>, le: IdOrder, minScore: real,
                        limit: int, active: nat, maxBuilding: int, x: Idea, k: nat)
    requires Collation(le) && x in ideas && k < |Select(ideas, known, le, minScore, limit, active, maxBuilding)|
    requires forall i :: 0 <= i < |Select(ideas, known, le, minScore, limit, active, maxBuilding)| ==>
               Select(ideas, known, le, minScore, limit, active, maxBuilding)[i].idea != x
    ensures var y := Select(ideas, known, le, minScore, limit, active, maxBuilding)[k].idea;
            Total(y, known) > Total(x, known) || (Total(y, known) == Total(x, known) && le(y.id, x.id))
  {
    var sel, r := Select(ideas, known, le, minScore, limit, active, maxBuilding), Rank(ideas, known, le);
    SelectIsBeginning(ideas, known, le, minScore, limit, active, maxBuilding);
    RankMembers(ideas, known, le, Ranked(x, Total(x, known)));
    var j :| 0 <= j < |r| && r[j] == Ranked(x, Total(x, known));
    assert forall i :: 0 <= i < |sel| ==> sel[i] == r[i];
    RankDescends(ideas, known, le, k, j);
    RankMembers(ideas, known, le, r[k]);
  }
}
