/**
 * The forecast resolver: one pass over the forecasts per run, appending to two ledgers.
 * A forecast is resolved for good when its window is closed, it is valid and its rule is ready;
 * every other look at it is an attempt.
 */
module Resolver {
  import opened Values
  import Sorting

  // ------------------------------------------------------------------ forecasts and observations

  /** A date: its place in the store's text order, and its time if it parses. */
  datatype Date = Date(text: int, time: Option<int>)

  datatype Target = NullTarget | Target(aggregation: Option<string>, entity: Option<string>)
  datatype Claim = NullClaim | Claim(typ: Option<string>)
  datatype Baseline = NoBaseline | NullBaseline | Baseline(p: real)
  datatype Threshold = NoThreshold | NotANumber | Threshold(x: real)
  datatype Chance = NullChance | Chance(probability: Option<real>, baseline: Baseline, threshold: Threshold)

  datatype Forecast = Forecast(id: Option<string>, hypothesis: Option<string>, family: Option<string>,
                               issued: Option<Date>, start: Option<Date>, end: Option<Date>,
                               target: Option<Target>, claim: Option<Claim>, version: Option<string>,
                               snapshot: Option<string>, model: Option<string>, chances: Option<seq<Chance>>)

  /** What the hash is taken of. */
  datatype Key = Key(id: Option<string>, end: Option<Date>, version: Option<string>)

  function KeyOf(f: Forecast): Key { Key(f.id, f.end, f.version) }

  /** `value` is None when the stored value is not a finite number. */
  datatype Observation = Observation(metric: string, value: Option<real>, at: int, dimensions: string)

  datatype Store = Unreachable(message: string) | Holding(observations: seq<Observation>)

  // ------------------------------------------------------------------ validation

  datatype Reason =
    | Missing(fields: seq<string>)
    | IdPattern
    | Unparseable(field: string)
    | StartPrecedesIssue
    | BadAggregation(aggregation: string)
    | TypeMissing
    | NoEvents
    | ProbabilityRange
    | BaselineMissing

  datatype Verdict = Fine | Invalid(reason: Reason) | Throws

  function If(absent: bool, field: string): seq<string> { if absent then [field] else [] }

  function MissingFields(f: Forecast): seq<string> {
    If(f.id.None?, "forecast_id") + If(f.hypothesis.None?, "hypothesis_id") + If(f.family.None?, "prediction_family")
    + If(f.issued.None?, "issued_at") + If(f.start.None?, "window_start") + If(f.end.None?, "window_end")
    + If(f.target.None?, "target") + If(f.claim.None?, "forecast") + If(f.version.None?, "resolution_rule_version")
    + If(f.snapshot.None?, "evidence_snapshot_hash") + If(f.model.None?, "model_version")
  }

  predicate Digits(s: string) { s != "" && forall i :: 0 <= i < |s| ==> '0' <= s[i] <= '9' }

  /** 'point', or digits and a 'd'; the test on the number of days never fires, since 0 is falsy. */
  predicate AggregationOk(agg: string) {
    agg == "point" || (agg != "" && agg[|agg| - 1] == 'd' && Digits(agg[..|agg| - 1]))
  }

  function ValidateChances(cs: seq<Chance>): Verdict {
    if cs == [] then Fine
    else if cs[0].NullChance? then Throws
    else if cs[0].probability.None? || cs[0].probability.value < 0.0 || cs[0].probability.value > 1.0 then
      Invalid(ProbabilityRange)
    else if cs[0].baseline.NoBaseline? then Invalid(BaselineMissing)
    else ValidateChances(cs[1..])
  }

  function Validate(f: Forecast): Verdict {
    if MissingFields(f) != [] then Invalid(Missing(MissingFields(f)))
    else if !("fc_" <= f.id.value) then Invalid(IdPattern)
    else if f.issued.value.time.None? then Invalid(Unparseable("issued_at"))
    else if f.start.value.time.None? then Invalid(Unparseable("window_start"))
    else if f.end.value.time.None? then Invalid(Unparseable("window_end"))
    else if f.start.value.time.value < f.issued.value.time.value then Invalid(StartPrecedesIssue)
    else if f.target.value.NullTarget? then Throws
    else
      var agg := if f.target.value.aggregation.Some? then f.target.value.aggregation.value else "";
      if !AggregationOk(agg) then Invalid(BadAggregation(agg))
      else if f.claim.value.NullClaim? || f.claim.value.typ.None? || f.claim.value.typ.value == "" then Invalid(TypeMissing)
      else if f.chances.None? || f.chances.value == [] then Invalid(NoEvents)
      else ValidateChances(f.chances.value)
  }

  lemma {:induction false} ChancesFineIff(cs: seq<Chance>)
    ensures ValidateChances(cs).Fine? <==>
              forall i :: 0 <= i < |cs| ==>
                cs[i].Chance? && cs[i].probability.Some? && 0.0 <= cs[i].probability.value <= 1.0
                && !cs[i].baseline.NoBaseline?
  {
    if cs != [] {
      ChancesFineIff(cs[1..]);
      assert cs == [cs[0]] + cs[1..];
    }
  }

  /** A forecast is valid exactly when everything a resolution reads is there and in range. */
  lemma ValidIff(f: Forecast)
    ensures Validate(f).Fine? <==>
              && f.id.Some? && "fc_" <= f.id.value && f.hypothesis.Some? && f.family.Some?
              && f.version.Some? && f.snapshot.Some? && f.model.Some?
              && f.issued.Some? && f.issued.value.time.Some? && f.end.Some? && f.end.value.time.Some?
              && f.start.Some? && f.start.value.time.Some? && f.issued.value.time.value <= f.start.value.time.value
              && f.target.Some? && f.target.value.Target? && f.target.value.aggregation.Some?
              && AggregationOk(f.target.value.aggregation.value)
              && f.claim.Some? && f.claim.value.Claim? && f.claim.value.typ.Some? && f.claim.value.typ.value != ""
              && f.chances.Some? && f.chances.value != []
              && forall i :: 0 <= i < |f.chances.value| ==>
                   f.chances.value[i].Chance? && f.chances.value[i].probability.Some?
                   && 0.0 <= f.chances.value[i].probability.value <= 1.0 && !f.chances.value[i].baseline.NoBaseline?
  {
    if f.chances.Some? { ChancesFineIff(f.chances.value); }
  }

  // ------------------------------------------------------------------ the rule

  const H3P2 := "rr_H3P2_v1"
  const PRICE_MIN := "signal.incumbent_price_min"

  predicate Contains(s: string, part: string) {
    part <= s || (s != "" && Contains(s[1..], part))
  }

  /** The query's filter: metric prefix, window by text, and the entity tag when there is one. */
  predicate InWindow(f: Forecast, o: Observation)
    requires f.start.Some? && f.end.Some? && f.target.Some? && f.target.value.Target?
  {
    && PRICE_MIN <= o.metric
    && f.start.value.text <= o.at <= f.end.value.text
    && (f.target.value.entity.None? || f.target.value.entity.value == ""
        || Contains(o.dimensions, f.target.value.entity.value))
  }

  function Select(f: Forecast, os: seq<Observation>): seq<Observation>
    requires f.start.Some? && f.end.Some? && f.target.Some? && f.target.value.Target?
  {
    if os == [] then []
    else Select(f, os[..|os| - 1]) + if InWindow(f, os[|os| - 1]) then [os[|os| - 1]] else []
  }

  function ByTime(): (Observation, Observation) -> bool { (a: Observation, b: Observation) => a.at <= b.at }

  function Series(f: Forecast, os: seq<Observation>): seq<Observation>
    requires f.start.Some? && f.end.Some? && f.target.Some? && f.target.value.Target?
  {
    Sorting.Sort(ByTime(), Select(f, os))
  }

  function Abs(x: real): real { if x < 0.0 then -x else x }

  /** Rounding to a decimal place, halves away from zero. */
  function Rounded(x: real, scale: real): real
    requires scale > 0.0
  {
    if x >= 0.0 then (x * scale + 0.5).Floor as real / scale else -((-x * scale + 0.5).Floor as real / scale)
  }

  function Slope(series: seq<Observation>): Option<real> {
    if |series| < 2 then None
    else
      var a, b := series[0].value, series[|series| - 1].value;
      if a.None? || b.None? then None
      else if a.value == 0.0 then None
      else Some(Rounded((b.value - a.value) / Abs(a.value) * 100.0, 100.0))
  }

  datatype Ruling = Ready(actual: real, pass: bool) | NotReady | RuleThrew(message: string)

  predicate Passes(slope: real, t: Threshold) {
    match t
    case NoThreshold => slope > 0.0
    case NotANumber => false
    case Threshold(x) => slope > x
  }

  function Rule(f: Forecast, store: Store): Ruling
    requires Validate(f).Fine?
  {
    ValidIff(f);
    if f.version.value != H3P2 then NotReady
    else match store
         case Unreachable(m) => RuleThrew(m)
         case Holding(os) =>
           var slope := Slope(Series(f, os));
           if slope.None? then NotReady
           else Ready(slope.value, Passes(slope.value, f.chances.value[0].threshold))
  }

  lemma {:induction false} SelectMembers(f: Forecast, os: seq<Observation>, o: Observation)
    requires f.start.Some? && f.end.Some? && f.target.Some? && f.target.value.Target?
    ensures multiset(Select(f, os))[o] == if InWindow(f, o) then multiset(os)[o] else 0
  {
    if os != [] {
      SelectMembers(f, os[..|os| - 1], o);
      assert os == os[..|os| - 1] + [os[|os| - 1]];
    }
  }

  /**
   * Only observations inside the window count, and the order in which they arrived does not: two stores
   * holding the same in-window observations give the same ruling, if no two of them share a time.
   */
  lemma RulingIsWindowed(f: Forecast, os: seq<Observation>, more: seq<Observation>)
    requires Validate(f).Fine? && f.target.value.Target?
    requires forall o :: InWindow(f, o) ==> multiset(os)[o] == multiset(more)[o]
    requires forall x, y :: x in os && y in os && InWindow(f, x) && InWindow(f, y) && x.at == y.at ==> x == y
    ensures Rule(f, Holding(os)) == Rule(f, Holding(more))
  {
    var a, b := Select(f, os), Select(f, more);
    forall o ensures multiset(a)[o] == multiset(b)[o] {
      SelectMembers(f, os, o);
      SelectMembers(f, more, o);
    }
    assert multiset(a) == multiset(b);
    Sorting.SortBag(ByTime(), a);
    Sorting.SortBag(ByTime(), b);
    Sorting.SortSorted(ByTime(), a);
    Sorting.SortSorted(ByTime(), b);
    forall x | x in Series(f, os) ensures x in os && InWindow(f, x) {
      assert multiset(a)[x] > 0;
      SelectMembers(f, os, x);
    }
    Sorting.SortedUnique(ByTime(), Series(f, os), Series(f, more));
  }

  /** The observations without repeats. */
  function Deduplicated(os: seq<Observation>): seq<Observation> {
    if os == [] then []
    else
      var front, x := os[..|os| - 1], os[|os| - 1];
      if x in front then Deduplicated(front) else Deduplicated(front) + [x]
  }

  lemma {:induction false} DeduplicatedCount(os: seq<Observation>, o: Observation)
    ensures multiset(Deduplicated(os))[o] == if o in os then 1 else 0
  {
    if os != [] {
      SplitLast(os);
      DeduplicatedCount(os[..|os| - 1], o);
    }
  }

  lemma SeriesCount(f: Forecast, os: seq<Observation>, o: Observation)
    requires f.start.Some? && f.end.Some? && f.target.Some? && f.target.value.Target?
    ensures multiset(Series(f, os))[o] == if InWindow(f, o) then multiset(os)[o] else 0
    ensures o in Series(f, os) <==> o in os && InWindow(f, o)
  {
    SelectMembers(f, os, o);
    Sorting.SortBag(ByTime(), Select(f, os));
    assert o in Series(f, os) <==> multiset(Series(f, os))[o] > 0;
    assert o in os <==> multiset(os)[o] > 0;
  }

  /** No two different observations in the window share a time. */
  ghost predicate TimesUnique(f: Forecast, os: seq<Observation>)
    requires f.start.Some? && f.end.Some? && f.target.Some? && f.target.value.Target?
  {
    forall x, y :: x in os && y in os && InWindow(f, x) && InWindow(f, y) && x.at == y.at ==> x == y
  }

  ghost predicate SameMembers(a: seq<Observation>, b: seq<Observation>) { forall o :: o in a <==> o in b }

  /** Two sorted series of the same observations begin and end alike. */
  lemma SameEnds(a: seq<Observation>, b: seq<Observation>)
    requires Sorting.SortedBy(ByTime(), a) && Sorting.SortedBy(ByTime(), b) && SameMembers(a, b)
    requires forall x, y :: x in a && y in a && x.at == y.at ==> x == y
    ensures a == [] <==> b == []
    ensures a != [] ==> a[0] == b[0] && a[|a| - 1] == b[|b| - 1]
  {
    assert (a != [] ==> a[0] in a) && (b != [] ==> b[0] in b);
    if a != [] {
      assert a[0] in b && a[|a| - 1] in b;
      assert b[0] in a && b[|b| - 1] in a;
      FirstAndLast(a, b[0]);
      FirstAndLast(a, b[|b| - 1]);
      FirstAndLast(b, a[0]);
      FirstAndLast(b, a[|a| - 1]);
    }
  }

  lemma FirstAndLast(a: seq<Observation>, x: Observation)
    requires Sorting.SortedBy(ByTime(), a) && x in a
    ensures a[0].at <= x.at <= a[|a| - 1].at
  {
    var i :| 0 <= i < |a| && a[i] == x;
    assert i == 0 || ByTime()(a[0], a[i]);
    assert i == |a| - 1 || ByTime()(a[i], a[|a| - 1]);
  }

  /** A single observation that counts, in the window more than once. */
  ghost predicate OnlyRepeats(f: Forecast, os: seq<Observation>, o: Observation)
    requires f.start.Some? && f.end.Some? && f.target.Some? && f.target.value.Target?
  {
    && o in os && InWindow(f, o) && multiset(os)[o] >= 2 && o.value.Some? && o.value.value != 0.0
    && forall x :: x in os && InWindow(f, x) ==> x == o
  }

  lemma SlopeOfRepeats(a: seq<Observation>, o: Observation)
    requires a != [] && forall x :: x in a ==> x == o
    ensures Slope(a) == if |a| < 2 || o.value.None? || o.value.value == 0.0 then None else Some(0.0)
  {
    assert a[0] in a && a[|a| - 1] in a;
  }

  /** Two or more observations among the members make either series long enough. */
  lemma SlopeOfMembers(a: seq<Observation>, b: seq<Observation>, x: Observation, y: Observation)
    requires Sorting.SortedBy(ByTime(), a) && Sorting.SortedBy(ByTime(), b) && SameMembers(a, b)
    requires forall x, y :: x in a && y in a && x.at == y.at ==> x == y
    requires x in a && y in a && x != y
    ensures Slope(a) == Slope(b)
  {
    SameEnds(a, b);
    var i :| 0 <= i < |a| && a[i] == x;
    var j :| 0 <= j < |a| && a[j] == y;
    var k :| 0 <= k < |b| && b[k] == x;
    var l :| 0 <= l < |b| && b[l] == y;
    assert |a| >= 2 && |b| >= 2;
  }

  /** Removing repeats changes the slope exactly when the window holds one counting observation, repeated. */
  lemma SlopeChangesIff(f: Forecast, os: seq<Observation>)
    requires Validate(f).Fine? && f.target.value.Target? && TimesUnique(f, os)
    ensures Slope(Series(f, os)) != Slope(Series(f, Deduplicated(os))) <==> exists o :: OnlyRepeats(f, os, o)
    ensures Slope(Series(f, os)) != Slope(Series(f, Deduplicated(os))) ==>
              Slope(Series(f, os)) == Some(0.0) && Slope(Series(f, Deduplicated(os))) == None
  {
    var a, b := Series(f, os), Series(f, Deduplicated(os));
    Sorting.SortSorted(ByTime(), Select(f, os));
    Sorting.SortSorted(ByTime(), Select(f, Deduplicated(os)));
    forall o ensures o in a <==> o in os && InWindow(f, o) { SeriesCount(f, os, o); }
    forall o ensures o in b <==> o in os && InWindow(f, o) {
      SeriesCount(f, Deduplicated(os), o);
      DeduplicatedCount(os, o);
      assert o in Deduplicated(os) <==> multiset(Deduplicated(os))[o] > 0;
    }
    assert b != [] ==> b[0] in b;
    if a == [] {
      assert forall o :: o in b ==> o in a;
      assert forall o :: o in os && InWindow(f, o) ==> o in a;
    } else if x :| x in a && x != a[0] {
      SlopeOfMembers(a, b, a[0], x);
      assert a[0] in os && x in os;
    } else {
      OneObservation(f, os, a, b, a[0]);
    }
  }

  lemma OneObservation(f: Forecast, os: seq<Observation>, a: seq<Observation>, b: seq<Observation>, o: Observation)
    requires Validate(f).Fine? && f.target.value.Target?
    requires a == Series(f, os) && b == Series(f, Deduplicated(os))
    requires a != [] && (forall x :: x in a ==> x == o)
    requires forall x :: x in a <==> x in os && InWindow(f, x)
    requires forall x :: x in b <==> x in os && InWindow(f, x)
    ensures Slope(a) != Slope(b) <==> exists o :: OnlyRepeats(f, os, o)
    ensures Slope(a) != Slope(b) ==> Slope(a) == Some(0.0) && Slope(b) == None
  {
    assert a[0] in a && o in a && o in b;
    SeriesCount(f, os, o);
    SeriesCount(f, Deduplicated(os), o);
    DeduplicatedCount(os, o);
    assert (forall i :: 0 <= i < |a| ==> a[i] in a) && forall i :: 0 <= i < |b| ==> b[i] in b;
    CountOfRepeats(a, o);
    CountOfRepeats(b, o);
    SlopeOfRepeats(a, o);
    SlopeOfRepeats(b, o);
    if x :| OnlyRepeats(f, os, x) { assert x in a && x == o; }
    assert OnlyRepeats(f, os, o) <==> |a| >= 2 && o.value.Some? && o.value.value != 0.0;
  }

  lemma {:induction false} CountOfRepeats(a: seq<Observation>, o: Observation)
    requires forall i :: 0 <= i < |a| ==> a[i] == o
    ensures multiset(a)[o] == |a|
  {
    if a != [] {
      SplitLast(a);
      CountOfRepeats(a[..|a| - 1], o);
    }
  }

  /**
   * Duplicate deliveries are harmless in every case but one, and in that one they are not: the ruling with
   * them differs from the ruling without exactly when the window holds a single observation, finite and not
   * zero, that was delivered more than once. Missing data then becomes a resolution with slope 0.
   */
  lemma DuplicatesMatterIff(f: Forecast, os: seq<Observation>)
    requires Validate(f).Fine? && f.target.value.Target? && TimesUnique(f, os)
    ensures Rule(f, Holding(os)) != Rule(f, Holding(Deduplicated(os))) <==>
              f.version.value == H3P2 && exists o :: OnlyRepeats(f, os, o)
    ensures Rule(f, Holding(os)) != Rule(f, Holding(Deduplicated(os))) ==>
              Rule(f, Holding(os)).Ready? && Rule(f, Holding(os)).actual == 0.0
              && Rule(f, Holding(Deduplicated(os))).NotReady?
  {
    SlopeChangesIff(f, os);
  }

  // ------------------------------------------------------------------ one forecast

  datatype AttemptKind = InvalidForecast(reason: Reason) | TransientError(message: string) | AwaitingData
  datatype Attempt = Attempt(key: Key, id: Option<string>, at: int, kind: AttemptKind)
  datatype Resolution = Resolution(key: Key, id: string, hypothesis: string, version: string, at: int, pass: bool,
                                   actual: real, brier: real, skill: real, baseline: real, snapshot: string, model: string)

  /**
   * How the process fares: it lives, dies before its append, or dies in the middle of it, with a part of the
   * record written (`Tears`) or all of it but the line end (`Cuts`).
   */
  datatype Fate = Lives | Dies | Tears | Cuts

  /** What one forecast meets: the clock, the store, and the process's fate. */
  datatype Turn = Turn(now: int, store: Store, fate: Fate)

  /** A ledger line and its turn; `None` is a line holding `null`. */
  datatype Job = Job(line: Option<Forecast>, turn: Turn)

  datatype Outcome = Skipped | Fatal | Attempted(attempt: Attempt) | Resolved(resolution: Resolution)

  function Squared(x: real): real { x * x }

  function Record(f: Forecast, now: int, actual: real, pass: bool): Resolution
    requires Validate(f).Fine?
  {
    ValidIff(f);
    var c := f.chances.value[0];
    var y := if pass then 1.0 else 0.0;
    var baseline := if c.baseline.Baseline? then c.baseline.p else 0.5;
    var err, base := Squared(c.probability.value - y), Squared(baseline - y);
    Resolution(KeyOf(f), f.id.value, f.hypothesis.value, f.version.value, now, pass, actual, Rounded(err, 10000.0),
               Rounded(1.0 - err / (if base == 0.0 then 1.0 else base), 10000.0), baseline, f.snapshot.value, f.model.value)
  }

  lemma BrierInRange(f: Forecast, now: int, actual: real, pass: bool)
    requires Validate(f).Fine?
    ensures var r := Record(f, now, actual, pass);
            0.0 <= r.brier <= 1.0 && (r.brier == 0.0 <== f.chances.value[0].probability.value == if pass then 1.0 else 0.0)
  {
    ValidIff(f);
    var x := f.chances.value[0].probability.value - if pass then 1.0 else 0.0;
    assert -1.0 <= x <= 1.0;
    assert 0.0 <= Squared(x) <= 1.0 by {
      if x >= 0.0 { SquareBelow(x); } else { SquareBelow(-x); assert x * x == (-x) * (-x); }
    }
    var scaled := Squared(x) * 10000.0 + 0.5;
    assert 0.0 <= scaled <= 10000.5;
    assert 0 <= scaled.Floor <= 10000;
  }

  lemma SquareBelow(x: real)
    requires 0.0 <= x <= 1.0
    ensures 0.0 <= x * x <= 1.0
  {
    var y := 1.0 - x;
    assert x * y >= 0.0;
    assert x * x == x - x * y;
  }

  predicate StillOpen(f: Forecast, now: int) {
    f.end.Some? && f.end.value.time.Some? && now < f.end.value.time.value
  }

  /** What comes of a forecast whose key is not final yet. */
  function Look(f: Forecast, turn: Turn): Outcome {
    if StillOpen(f, turn.now) then Skipped
    else match Validate(f)
         case Throws => Fatal
         case Invalid(why) => Attempted(Attempt(KeyOf(f), f.id, turn.now, InvalidForecast(why)))
         case Fine =>
           match Rule(f, turn.store)
           case RuleThrew(m) => Attempted(Attempt(KeyOf(f), f.id, turn.now, TransientError(m)))
           case NotReady => Attempted(Attempt(KeyOf(f), f.id, turn.now, AwaitingData))
           case Ready(actual, pass) => Resolved(Record(f, turn.now, actual, pass))
  }

  predicate Proper(c: RawCase) {
    (c.outcome.Resolved? ==> c.key == Some(c.outcome.resolution.key)) && (c.key.None? ==> c.outcome.Fatal?)
  }

  /** A job as the run sees it: its key, the process's fate there, and its outcome if the key is new. */
  datatype RawCase = Case(key: Option<Key>, fate: Fate, outcome: Outcome)
  type Case = c: RawCase | Proper(c) witness Case(None, Lives, Fatal)

  function CaseOf(j: Job): Case {
    if j.line.None? then Case(None, j.turn.fate, Fatal)
    else Case(Some(KeyOf(j.line.value)), j.turn.fate, Look(j.line.value, j.turn))
  }

  function Cases(jobs: seq<Job>): (cs: seq<Case>)
    ensures |cs| == |jobs| && forall i :: 0 <= i < |jobs| ==> cs[i] == CaseOf(jobs[i])
  {
    seq(|jobs|, i requires 0 <= i < |jobs| => CaseOf(jobs[i]))
  }

  // ------------------------------------------------------------------ the final ledger

  /** How much of a record reached the file: all of it, all but the line end, or a part. */
  datatype Ending = Whole | Unended | Torn
  datatype Written = Written(record: Resolution, ending: Ending)

  /** What follows a missing line end stands on the same line. */
  predicate EndsWhole(file: seq<Written>) { file == [] || file[|file| - 1].ending.Whole? }

  function Lines(file: seq<Written>): (lines: seq<seq<Written>>)
    ensures file != [] ==> lines != []
  {
    if file == [] then []
    else
      var front, w := file[..|file| - 1], file[|file| - 1];
      var lines := Lines(front);
      if EndsWhole(front) then lines + [[w]] else lines[..|lines| - 1] + [lines[|lines| - 1] + [w]]
  }

  /** A line is JSON when it holds one record and all of it. */
  predicate Parses(line: seq<Written>) { |line| == 1 && !line[0].ending.Torn? }

  /** One line that does not parse, and the whole file reads as empty. */
  function Loaded(file: seq<Written>): seq<Resolution> {
    var lines := Lines(file);
    if forall l :: l in lines ==> Parses(l) then
      seq(|lines|, i requires 0 <= i < |lines| && Parses(lines[i]) => lines[i][0].record)
    else []
  }

  /** The records that were written in full, whether or not they can be read back. */
  function Recorded(file: seq<Written>): seq<Resolution> {
    if file == [] then []
    else
      var w := file[|file| - 1];
      Recorded(file[..|file| - 1]) + if w.ending.Torn? then [] else [w.record]
  }

  /** No record is torn, and only the last may lack its line end. */
  predicate Sound(file: seq<Written>) {
    forall i :: 0 <= i < |file| ==> file[i].ending.Whole? || (file[i].ending.Unended? && i == |file| - 1)
  }

  lemma SoundSnoc(file: seq<Written>, w: Written)
    ensures Sound(file + [w]) <==> Sound(file) && EndsWhole(file) && !w.ending.Torn?
  {
    var more := file + [w];
    assert more[|file|] == w && forall i :: 0 <= i < |file| ==> more[i] == file[i];
    if Sound(more) && file != [] { assert more[|file| - 1].ending.Whole?; }
  }

  lemma RecordedSnoc(file: seq<Written>, w: Written)
    ensures Recorded(file + [w]) == Recorded(file) + if w.ending.Torn? then [] else [w.record]
  {
    assert (file + [w])[..|file|] == file;
  }

  lemma {:induction false} LinesOfSound(file: seq<Written>)
    requires Sound(file)
    ensures |Lines(file)| == |file| == |Recorded(file)|
    ensures forall i :: 0 <= i < |file| ==> Lines(file)[i] == [file[i]] && Recorded(file)[i] == file[i].record
  {
    if file != [] {
      var n := |file| - 1;
      assert file == file[..n] + [file[n]];
      SoundSnoc(file[..n], file[n]);
      LinesOfSound(file[..n]);
    }
  }

  lemma {:induction false} UnsoundLine(file: seq<Written>) returns (k: nat)
    requires !Sound(file)
    ensures k < |Lines(file)| && !Parses(Lines(file)[k])
  {
    var n := |file| - 1;
    assert file == file[..n] + [file[n]];
    SoundSnoc(file[..n], file[n]);
    if !Sound(file[..n]) {
      k := UnsoundLine(file[..n]);
    } else {
      LinesOfSound(file[..n]);
      k := |Lines(file)| - 1;
    }
  }

  /**
   * What the next run reads: every record, if no append of the past was cut short except the last one by no
   * more than its line end, and otherwise nothing at all.
   */
  lemma LoadedIff(file: seq<Written>)
    ensures Loaded(file) == if Sound(file) then Recorded(file) else []
    ensures (forall l :: l in Lines(file) ==> Parses(l)) <==> Sound(file)
  {
    if Sound(file) {
      LinesOfSound(file);
    } else {
      var k := UnsoundLine(file);
      assert Lines(file)[k] in Lines(file);
    }
  }

  // ------------------------------------------------------------------ one run

  /** The two ledgers, the keys the run holds as final, and whether it has ended early. */
  datatype Run = Run(attempts: seq<Attempt>, file: seq<Written>, seen: set<Key>, dead: bool) {
    function Finals(): seq<Resolution> { Recorded(file) }
  }

  function KeysOf(finals: seq<Resolution>): set<Key> { set r | r in finals :: r.key }
  function KeySeq(finals: seq<Resolution>): seq<Key> { seq(|finals|, i requires 0 <= i < |finals| => finals[i].key) }

  /** A run begins; a file it cannot read counts as empty, like one that does not parse. */
  function Opened(attempts: seq<Attempt>, file: seq<Written>, readable: bool): Run {
    Run(attempts, file, if readable then KeysOf(Loaded(file)) else {}, false)
  }

  function EndingOf(fate: Fate): Ending {
    match fate
    case Tears => Torn
    case Cuts => Unended
    case _ => Whole
  }

  function Next(r: Run, c: Case): Run {
    if r.dead || c.fate.Dies? then r.(dead := true)
    else if c.key.Some? && c.key.value in r.seen then r.(dead := !c.fate.Lives?)
    else match c.outcome
         case Fatal => r.(dead := true)
         case Skipped => r.(dead := !c.fate.Lives?)
         case Attempted(a) =>
           r.(attempts := if c.fate.Tears? then r.attempts else r.attempts + [a], dead := !c.fate.Lives?)
         case Resolved(x) =>
           r.(file := r.file + [Written(x, EndingOf(c.fate))],
              seen := if c.fate.Tears? then r.seen else r.seen + {x.key}, dead := !c.fate.Lives?)
  }

  function After(r: Run, cs: seq<Case>): Run {
    if cs == [] then r else Next(After(r, cs[..|cs| - 1]), cs[|cs| - 1])
  }

  lemma OneMore(r: Run, cs: seq<Case>, n: nat)
    requires n < |cs|
    ensures After(r, cs[..n + 1]) == Next(After(r, cs[..n]), cs[n])
  {
    assert cs[..n + 1][..n] == cs[..n];
  }

  class ForecastResolver {
    var attempts: seq<Attempt>
    var file: seq<Written>

    constructor ()
      ensures attempts == [] && file == []
    {
      attempts, file := [], [];
    }

    /** One run; `done` tells whether it got through all the forecasts. */
    method ResolveAll(jobs: seq<Job>, readable: bool) returns (done: bool)
      modifies this
      ensures var r := After(Opened(old(attempts), old(file), readable), Cases(jobs));
              attempts == r.attempts && file == r.file && done == !r.dead
    {
      var finalKeys := if readable then KeysOf(Loaded(file)) else {};
      ghost var r0 := Opened(attempts, file, readable);
      ghost var cs := Cases(jobs);
      var n := 0;
      done := true;
      while n < |jobs| && done
        invariant 0 <= n <= |jobs|
        invariant After(r0, cs[..n]) == Run(attempts, file, finalKeys, !done)
      {
        var j := jobs[n];
        ghost var before := Run(attempts, file, finalKeys, false);
        OneMore(r0, cs, n);
        assert After(r0, cs[..n + 1]) == Next(before, CaseOf(j));
        n := n + 1;
        if j.turn.fate.Dies? || j.line.None? {
          done := false;
          continue;
        }
        done := j.turn.fate.Lives?;
        if KeyOf(j.line.value) in finalKeys { continue; }
        match Look(j.line.value, j.turn) {
          case Fatal => done := false;
          case Skipped =>
          case Attempted(a) =>
            if !j.turn.fate.Tears? { attempts := attempts + [a]; }
          case Resolved(x) =>
            file := file + [Written(x, EndingOf(j.turn.fate))];
            if !j.turn.fate.Tears? { finalKeys := finalKeys + {x.key}; }
        }
      }
      DeadStays(r0, cs, n);
      assert cs[..|jobs|] == cs;
    }
  }

  lemma {:induction false} DeadStays(r: Run, cs: seq<Case>, n: nat)
    requires n <= |cs|
    ensures n == |cs| || After(r, cs[..n]).dead ==> After(r, cs) == After(r, cs[..n])
  {
    if n < |cs| {
      DeadStays(r, cs[..|cs| - 1], n);
      assert cs[..|cs| - 1][..n] == cs[..n];
    } else {
      assert cs[..n] == cs;
    }
  }
}
