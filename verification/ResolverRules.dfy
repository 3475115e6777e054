/**
 * What a forecast's resolution says of the observations: when the price rule decides, what number it gives, when
 * that is a pass, and what the record holds.
 */
module ResolverRules {
  import opened Values
  import opened Resolver
  import Sorting

  // ------------------------------------------------------------------ the window

  /** The text holds the part somewhere. */
  ghost predicate Within(s: string, part: string) { exists i :: 0 <= i <= |s| && part <= s[i..] }

  lemma {:induction false} ContainsIff(s: string, part: string)
    ensures Contains(s, part) <==> Within(s, part)
  {
    assert s[0..] == s;
    if s != [] {
      ContainsIff(s[1..], part);
      if i :| 0 <= i <= |s[1..]| && part <= s[1..][i..] { assert s[1..][i..] == s[i + 1..]; }
      if i :| 0 < i <= |s| && part <= s[i..] { assert s[i..] == s[1..][i - 1..]; }
    }
  }

  /** An observation that counts: an incumbent's minimum price, between start and end, of the forecast's entity. */
  ghost predicate Counts(f: Forecast, o: Observation)
    requires f.start.Some? && f.end.Some? && f.target.Some? && f.target.value.Target?
  {
    && "signal.incumbent_price_min" <= o.metric && f.start.value.text <= o.at && o.at <= f.end.value.text
    && (f.target.value.entity.Some? ==> Within(o.dimensions, f.target.value.entity.value))
  }

  lemma CountsIff(f: Forecast, o: Observation)
    requires f.start.Some? && f.end.Some? && f.target.Some? && f.target.value.Target?
    ensures Counts(f, o) <==> InWindow(f, o)
  {
    if f.target.value.entity.Some? {
      ContainsIff(o.dimensions, f.target.value.entity.value);
      assert o.dimensions[0..] == o.dimensions;
      assert f.target.value.entity.value == "" ==> f.target.value.entity.value <= o.dimensions[0..];
    }
  }

  ghost predicate Earliest(f: Forecast, os: seq<Observation>, x: Observation)
    requires f.start.Some? && f.end.Some? && f.target.Some? && f.target.value.Target?
  {
    x in os && Counts(f, x) && forall o :: o in os && Counts(f, o) ==> x.at <= o.at
  }

  ghost predicate Last(f: Forecast, os: seq<Observation>, y: Observation)
    requires f.start.Some? && f.end.Some? && f.target.Some? && f.target.value.Target?
  {
    y in os && Counts(f, y) && forall o :: o in os && Counts(f, o) ==> o.at <= y.at
  }

  /** The series begins with the earliest observation that counts and ends with the last. */
  lemma SeriesEnds(f: Forecast, os: seq<Observation>, x: Observation, y: Observation)
    requires Validate(f).Fine? && f.target.value.Target? && TimesUnique(f, os)
    requires Earliest(f, os, x) && Last(f, os, y)
    ensures var s := Series(f, os); s != [] && s[0] == x && s[|s| - 1] == y
    ensures |Series(f, os)| >= 2 <==> x != y || multiset(os)[x] >= 2
  {
    var s := Series(f, os);
    forall o ensures (Counts(f, o) <==> InWindow(f, o)) && (o in s <==> o in os && InWindow(f, o)) {
      CountsIff(f, o);
      SeriesCount(f, os, o);
    }
    Sorting.SortSorted(ByTime(), Select(f, os));
    assert x in s && y in s;
    FirstAndLast(s, x);
    FirstAndLast(s, y);
    assert s[0] in s && s[|s| - 1] in s;
    LongIff(f, os, x, y);
  }

  lemma LongIff(f: Forecast, os: seq<Observation>, x: Observation, y: Observation)
    requires Validate(f).Fine? && f.target.value.Target?
    requires var s := Series(f, os); s != [] && s[0] == x && s[|s| - 1] == y
    requires forall o :: o in Series(f, os) ==> x.at <= o.at <= y.at
    requires forall o, p :: o in Series(f, os) && p in Series(f, os) && o.at == p.at ==> o == p
    ensures |Series(f, os)| >= 2 <==> x != y || multiset(os)[x] >= 2
  {
    var s := Series(f, os);
    assert x in s;
    SeriesCount(f, os, x);
    if x == y {
      assert forall i :: 0 <= i < |s| ==> s[i] in s && s[i] == x;
      CountOfRepeats(s, x);
    }
  }

  // ------------------------------------------------------------------ the number

  predicate Hundredths(x: real) { (x * 100.0).Floor as real == x * 100.0 }

  /** To a hundredth, and no more than half of one away. */
  lemma RoundedIsNear(x: real)
    ensures -0.005 <= Rounded(x, 100.0) - x <= 0.005
    ensures Hundredths(Rounded(x, 100.0))
  {
    if x >= 0.0 {
      var n := (x * 100.0 + 0.5).Floor;
      assert n as real <= x * 100.0 + 0.5 < n as real + 1.0;
      assert Rounded(x, 100.0) * 100.0 == n as real;
    } else {
      var n := (-x * 100.0 + 0.5).Floor;
      assert n as real <= -x * 100.0 + 0.5 < n as real + 1.0;
      assert Rounded(x, 100.0) * 100.0 == (-n) as real;
    }
  }

  /** By how many percent of the first price the second differs from it. */
  function Change(a: real, b: real): real
    requires a != 0.0
  {
    100.0 * (b - a) / (if a > 0.0 then a else -a)
  }

  lemma ChangeIs(a: real, b: real)
    requires a != 0.0
    ensures (b - a) / Abs(a) * 100.0 == Change(a, b)
  {}

  ghost predicate Exceeds(actual: real, t: Threshold) {
    (t.NoThreshold? && actual > 0.0) || (t.Threshold? && actual > t.x)
  }

  /** The slope of a series, from its ends. */
  lemma SlopeIs(s: seq<Observation>, x: Observation, y: Observation)
    requires s != [] && s[0] == x && s[|s| - 1] == y
    ensures Slope(s).Some? <==> |s| >= 2 && x.value.Some? && y.value.Some? && x.value.value != 0.0
    ensures Slope(s).Some? ==>
              -0.005 <= Slope(s).value - Change(x.value.value, y.value.value) <= 0.005 && Hundredths(Slope(s).value)
  {
    if x.value.Some? && y.value.Some? && x.value.value != 0.0 {
      ChangeIs(x.value.value, y.value.value);
      RoundedIsNear(Change(x.value.value, y.value.value));
    }
  }

  lemma RuleIs(f: Forecast, os: seq<Observation>)
    requires Validate(f).Fine? && f.target.value.Target? && f.version.value == "rr_H3P2_v1"
    ensures f.chances.Some? && f.chances.value != [] && f.chances.value[0].Chance?
    ensures var r, slope := Rule(f, Holding(os)), Slope(Series(f, os));
            && (r.Ready? <==> slope.Some?) && (r.Ready? || r.NotReady?)
            && (r.Ready? ==> r.actual == slope.value && (r.pass <==> Exceeds(r.actual, f.chances.value[0].threshold)))
  {
    ValidIff(f);
  }

  /**
   * The price rule, told from the observations. It decides exactly when two prices can be compared: the earliest
   * and the last one that count are different, or one that was delivered twice, both are numbers and the first is
   * not zero. Its number is the change in percent, rounded; and it passes when that exceeds the threshold.
   */
  lemma PriceRule(f: Forecast, os: seq<Observation>, x: Observation, y: Observation)
    requires Validate(f).Fine? && f.target.value.Target? && TimesUnique(f, os) && f.version.value == "rr_H3P2_v1"
    requires Earliest(f, os, x) && Last(f, os, y)
    ensures var r := Rule(f, Holding(os));
            && (r.Ready? <==> (x != y || multiset(os)[x] >= 2) && x.value.Some? && y.value.Some? && x.value.value != 0.0)
            && (r.Ready? || r.NotReady?)
            && (r.Ready? ==>
                  && -0.005 <= r.actual - Change(x.value.value, y.value.value) <= 0.005 && Hundredths(r.actual)
                  && (r.pass <==> Exceeds(r.actual, f.chances.value[0].threshold)))
  {
    RuleIs(f, os);
    SeriesEnds(f, os, x, y);
    SlopeIs(Series(f, os), x, y);
  }

  /** Without an observation that counts, under another rule, or without the store, nothing is decided. */
  lemma NothingDecides(f: Forecast, store: Store)
    requires Validate(f).Fine? && f.target.value.Target?
    requires f.version.value != "rr_H3P2_v1" || store.Unreachable? || forall o :: o in store.observations ==> !Counts(f, o)
    ensures !Rule(f, store).Ready?
    ensures Rule(f, store).RuleThrew? <==> f.version.value == "rr_H3P2_v1" && store.Unreachable?
  {
    if store.Holding? && f.version.value == "rr_H3P2_v1" {
      var s := Series(f, store.observations);
      if s != [] {
        assert s[0] in s;
        SeriesCount(f, store.observations, s[0]);
        CountsIff(f, s[0]);
      }
    }
  }

  // ------------------------------------------------------------------ the record

  /** What comes of a forecast, from its clock, its validity and its rule. */
  lemma OutcomeIs(f: Forecast, turn: Turn)
    ensures var out := CaseOf(Job(Some(f), turn)).outcome;
            var open := f.end.Some? && f.end.value.time.Some? && turn.now < f.end.value.time.value;
            && (out.Skipped? <==> open)
            && (out.Fatal? <==> !open && Validate(f).Throws?)
            && (out.Resolved? <==> !open && Validate(f).Fine? && Rule(f, turn.store).Ready?)
            && (out.Attempted? ==>
                  && (out.attempt.kind.InvalidForecast? <==> Validate(f).Invalid?)
                  && (out.attempt.kind.TransientError? <==> Validate(f).Fine? && Rule(f, turn.store).RuleThrew?)
                  && (out.attempt.kind.AwaitingData? <==> Validate(f).Fine? && Rule(f, turn.store).NotReady?)
                  && out.attempt.key == KeyOf(f) && out.attempt.id == f.id && out.attempt.at == turn.now)
  {}

  lemma RoundedIsNear4(x: real)
    ensures -0.00005 <= Rounded(x, 10000.0) - x <= 0.00005
  {
    if x >= 0.0 {
      var n := (x * 10000.0 + 0.5).Floor;
      assert n as real <= x * 10000.0 + 0.5 < n as real + 1.0;
    } else {
      var n := (-x * 10000.0 + 0.5).Floor;
      assert n as real <= -x * 10000.0 + 0.5 < n as real + 1.0;
    }
  }

  /** How far a probability was from what happened, squared. */
  function Miss(p: real, pass: bool): real { if pass then (1.0 - p) * (1.0 - p) else p * p }

  lemma SquaresAreMisses(p: real, y: real, pass: bool)
    requires y == if pass then 1.0 else 0.0
    ensures Squared(p - y) == Miss(p, pass)
  {
    if pass { assert (p - 1.0) * (p - 1.0) == (1.0 - p) * (1.0 - p); }
  }

  lemma ScoresAre(f: Forecast, now: int, actual: real, pass: bool)
    requires Validate(f).Fine?
    ensures f.chances.Some? && f.chances.value != [] && f.chances.value[0].Chance? && f.chances.value[0].probability.Some?
    ensures var r, c := Record(f, now, actual, pass), f.chances.value[0];
            var own, base := Miss(c.probability.value, pass), Miss(r.baseline, pass);
            && r.baseline == (if c.baseline.Baseline? then c.baseline.p else 0.5)
            && r.brier == Rounded(own, 10000.0)
            && r.skill == Rounded(1.0 - own / (if base == 0.0 then 1.0 else base), 10000.0)
  {
    ValidIff(f);
    var y := if pass then 1.0 else 0.0;
    SquaresAreMisses(f.chances.value[0].probability.value, y, pass);
    SquaresAreMisses(Record(f, now, actual, pass).baseline, y, pass);
  }

  /**
   * The record of a resolution: the forecast's own members, the rule's number and verdict, and as scores the
   * squared distance of the forecast probability from the verdict, and how far that beats the baseline's.
   */
  lemma RecordIs(f: Forecast, turn: Turn)
    requires CaseOf(Job(Some(f), turn)).outcome.Resolved?
    ensures Validate(f).Fine? && f.chances.Some? && f.chances.value != [] && f.chances.value[0].Chance?
            && f.chances.value[0].probability.Some?
    ensures var r := CaseOf(Job(Some(f), turn)).outcome.resolution;
            var rule, c := Rule(f, turn.store), f.chances.value[0];
            var own, base := Miss(c.probability.value, r.pass), Miss(r.baseline, r.pass);
            && r.key == Key(f.id, f.end, f.version) && Some(r.id) == f.id && Some(r.hypothesis) == f.hypothesis
            && Some(r.version) == f.version && Some(r.snapshot) == f.snapshot && Some(r.model) == f.model
            && r.at == turn.now && r.pass == rule.pass && r.actual == rule.actual
            && r.baseline == (if c.baseline.Baseline? then c.baseline.p else 0.5)
            && -0.00005 <= r.brier - own <= 0.00005
            && -0.00005 <= r.skill - (1.0 - own / (if base == 0.0 then 1.0 else base)) <= 0.00005
  {
    OutcomeIs(f, turn);
    ValidIff(f);
    var rule := Rule(f, turn.store);
    ScoresAre(f, turn.now, rule.actual, rule.pass);
    var r := Record(f, turn.now, rule.actual, rule.pass);
    var own, base := Miss(f.chances.value[0].probability.value, rule.pass), Miss(r.baseline, rule.pass);
    RoundedIsNear4(own);
    RoundedIsNear4(1.0 - own / (if base == 0.0 then 1.0 else base));
  }
}
