/**
 * Standards conformance: judge every site against the standard versions it desires, record the
 * verdicts as observations in the graph, and read the drift back from the graph.
 */
module Conformance {
  import opened Values
  import opened GraphModel
  import opened GraphStore
  import opened Projector
  import Bus = EventBus

  type Data = map<string, Value>

  const SITE := "Site"
  const OBSERVATION := "Observation"
  const CONFORMS_TO := "CONFORMS_TO"
  const COMPLIANCE := "standard.compliance"
  const SENSOR := "sensor_conformance"

  /** How the text of a time compares, and which number a value converts to (None: not a number). */
  datatype Reading = Reading(when: Value -> real, number: Value -> Option<real>)

  predicate Truthy(v: Value) {
    match v
    case Undefined => false
    case Null => false
    case Bool(b) => b
    case Num(n) => n != 0.0
    case Str(s) => s != ""
    case List(_) => true
    case Obj(_) => true
  }

  // ------------------------------------------------------------------ latest observations

  predicate Measures(d: Data, subject: Value, metric: Value) {
    Get(d, "subject_id") == subject && Get(d, "metric") == metric
  }

  function When(c: Reading, d: Data): real { c.when(Get(d, "observed_at")) }

  /** The observation of a metric that wins: the latest, and the last of several equally late. */
  function Latest(c: Reading, os: seq<Entity>, subject: Value, metric: Value): Option<Data> {
    if os == [] then None
    else
      var prev, d := Latest(c, os[..|os| - 1], subject, metric), os[|os| - 1].data;
      if Measures(d, subject, metric) && (prev.None? || When(c, d) >= When(c, prev.value)) then Some(d) else prev
  }

  /** Observation `i` is of the metric, none before it is later, and all behind it are earlier. */
  ghost predicate Wins(c: Reading, os: seq<Entity>, i: nat, subject: Value, metric: Value) {
    && i < |os| && Measures(os[i].data, subject, metric)
    && forall j :: 0 <= j < |os| && Measures(os[j].data, subject, metric) ==> Yields(c, os, j, i)
  }

  ghost predicate Yields(c: Reading, os: seq<Entity>, j: nat, i: nat)
    requires i < |os| && j < |os|
  {
    if j <= i then When(c, os[j].data) <= When(c, os[i].data) else When(c, os[j].data) < When(c, os[i].data)
  }

  lemma WinnerStays(c: Reading, os: seq<Entity>, x: Entity, i: nat, subject: Value, metric: Value)
    requires Wins(c, os, i, subject, metric)
    requires Measures(x.data, subject, metric) ==> When(c, x.data) < When(c, os[i].data)
    ensures Wins(c, os + [x], i, subject, metric)
  {
    forall j | 0 <= j < |os + [x]| && Measures((os + [x])[j].data, subject, metric) ensures Yields(c, os + [x], j, i) {
      if j < |os| { assert Yields(c, os, j, i); }
    }
  }

  lemma LastWins(c: Reading, os: seq<Entity>, x: Entity, subject: Value, metric: Value)
    requires Measures(x.data, subject, metric)
    requires forall j :: 0 <= j < |os| && Measures(os[j].data, subject, metric) ==> When(c, os[j].data) <= When(c, x.data)
    ensures Wins(c, os + [x], |os|, subject, metric)
  {}

  lemma {:induction false} LatestMissing(c: Reading, os: seq<Entity>, subject: Value, metric: Value)
    ensures Latest(c, os, subject, metric).None? <==> forall o :: o in os ==> !Measures(o.data, subject, metric)
  {
    if os != [] {
      LatestMissing(c, os[..|os| - 1], subject, metric);
      SplitLast(os);
    }
  }

  /** Which observation `Latest` is, without the loop. */
  lemma {:induction false} LatestIff(c: Reading, os: seq<Entity>, subject: Value, metric: Value) returns (i: nat)
    ensures Latest(c, os, subject, metric).Some? ==>
              Wins(c, os, i, subject, metric) && os[i].data == Latest(c, os, subject, metric).value
  {
    i := 0;
    if os != [] {
      var n := |os| - 1;
      var front, x := os[..n], os[n];
      i := LatestIff(c, front, subject, metric);
      SplitLast(os);
      var prev := Latest(c, front, subject, metric);
      LatestMissing(c, front, subject, metric);
      if Measures(x.data, subject, metric) && (prev.None? || When(c, x.data) >= When(c, prev.value)) {
        forall j | 0 <= j < n && Measures(front[j].data, subject, metric) ensures When(c, front[j].data) <= When(c, x.data) {
          assert Yields(c, front, j, i);
        }
        LastWins(c, front, x, subject, metric);
        i := n;
      } else if prev.Some? {
        WinnerStays(c, front, x, i, subject, metric);
      }
    }
  }

  // ------------------------------------------------------------------ judging one site

  /** What the checks look at, for one site. */
  datatype Facts = Facts(llms: Option<Data>, robots: Option<Data>, status: Option<Data>, calls: Option<Data>)

  function FactsOf(c: Reading, os: seq<Entity>, site: Id): Facts {
    Facts(Latest(c, os, Str(site), Str("llms_txt.present")), Latest(c, os, Str(site), Str("robots_txt.present")),
          Latest(c, os, Str(site), Str("http.status")), Latest(c, os, Str(site), Str("api.calls")))
  }

  predicate IsOne(o: Option<Data>) { o.Some? && Get(o.value, "value") == Num(1.0) }

  predicate Healthy(c: Reading, o: Option<Data>) {
    o.Some? && var n := c.number(Get(o.value, "value")); n.Some? && 0.0 < n.value < 500.0
  }

  /** A requirement without a check passes. */
  predicate Passes(c: Reading, f: Facts, requirement: Value) {
    if requirement == Str("llms-txt") then IsOne(f.llms)
    else if requirement == Str("robots-txt") then IsOne(f.robots)
    else if requirement == Str("agent-discovery-files") then IsOne(f.llms) && IsOne(f.robots)
    else if requirement == Str("http-health") then Healthy(c, f.status)
    else if requirement == Str("usage-telemetry") then f.calls.Some?
    else true
  }

  predicate IsApplicable(requirement: Value, site: Entity) {
    if requirement != Str("usage-telemetry") then true
    else if Get(site.data, "telemetry_exemptions").List? && requirement in Get(site.data, "telemetry_exemptions").items then false
    else Get(site.data, "runtime") == Str("cloudflare-workers") || Truthy(Get(site.data, "cloudflare_worker"))
  }

  datatype Requirement = Requirement(id: Value, severity: Value)

  function RequirementsOf(version: Entity): seq<Requirement> {
    match Get(version.data, "requirements")
    case List(items) =>
      seq(|items|, i requires 0 <= i < |items| =>
        if items[i].Obj? then Requirement(Get(items[i].fields, "id"), Get(items[i].fields, "severity"))
        else Requirement(Undefined, Undefined))
    case _ => []
  }

  predicate Fails(c: Reading, f: Facts, site: Entity, r: Requirement) {
    (r.severity != Str("required-if-applicable") || IsApplicable(r.id, site)) && !Passes(c, f, r.id)
  }

  /** The failed requirements that are required, or those that are not. */
  function Failed(c: Reading, f: Facts, site: Entity, rs: seq<Requirement>, required: bool): seq<Value> {
    if rs == [] then []
    else
      var r := rs[|rs| - 1];
      Failed(c, f, site, rs[..|rs| - 1], required)
      + if Fails(c, f, site, r) && (r.severity == Str("required")) == required then [r.id] else []
  }

  datatype Verdict = Verdict(site: Id, version: Id, failedRequired: seq<Value>, failedSoft: seq<Value>)

  predicate Compliant(v: Verdict) { v.failedRequired == [] }

  function Judge(c: Reading, f: Facts, site: Entity, version: Entity): Verdict {
    Verdict(site.id, version.id, Failed(c, f, site, RequirementsOf(version), true),
            Failed(c, f, site, RequirementsOf(version), false))
  }

  /** Not compliant exactly when some required requirement's check fails. */
  lemma {:induction false} FailedIff(c: Reading, f: Facts, site: Entity, rs: seq<Requirement>)
    ensures Failed(c, f, site, rs, true) == [] <==>
              forall i :: 0 <= i < |rs| && rs[i].severity == Str("required") ==> Passes(c, f, rs[i].id)
  {
    if rs != [] {
      var n := |rs| - 1;
      FailedIff(c, f, site, rs[..n]);
      assert forall i :: 0 <= i < n ==> rs[..n][i] == rs[i];
    }
  }

  ghost function Observations(g: Graph): seq<Entity>
    requires WellFormed(g)
  {
    OfType(g, g.order, Some(OBSERVATION))
  }

  ghost function Sites(g: Graph): seq<Entity>
    requires WellFormed(g)
  {
    OfType(g, g.order, Some(SITE))
  }

  ghost function Desired(g: Graph, site: Id): seq<Hop>
    requires WellFormed(g)
  {
    Neighbors(g, site, Out, Some({CONFORMS_TO}))
  }

  function Judged(c: Reading, f: Facts, site: Entity, hops: seq<Hop>): (vs: seq<Verdict>)
    ensures |vs| == |hops|
  {
    seq(|hops|, i requires 0 <= i < |hops| => Judge(c, f, site, hops[i].entity))
  }

  ghost function Evaluation(c: Reading, g: Graph, site: Entity): seq<Verdict>
    requires WellFormed(g)
  {
    Judged(c, FactsOf(c, Observations(g), site.id), site, Desired(g, site.id))
  }

  // ------------------------------------------------------------------ recording

  function Sanitized(s: string): string {
    seq(|s|, i requires 0 <= i < |s| =>
      if 'a' <= s[i] <= 'z' || 'A' <= s[i] <= 'Z' || '0' <= s[i] <= '9' then s[i] else '_')
  }

  function RecordId(site: Id, version: Id): Id { Sanitized("obs_conf_" + site + "_" + version) }

  /** The observation of a verdict; the joined requirement ids are kept as lists. */
  function Payload(v: Verdict, at: string): Data {
    map["id" := Str(RecordId(v.site, v.version)), "sensor_id" := Str(SENSOR), "subject_id" := Str(v.site),
        "metric" := Str(COMPLIANCE), "value" := Num(if Compliant(v) then 1.0 else 0.0), "unit" := Null,
        "dimensions" := Obj(map["failed_required" := List(v.failedRequired), "failed_recommended" := List(v.failedSoft)]),
        "experiment_id" := Null, "standard_version_id" := Str(v.version), "observed_at" := Str(at)]
  }

  function RecordEvent(v: Verdict, at: string): Event { Event(ObservationRecorded, at, Payload(v, at)) }

  // ------------------------------------------------------------------ drift

  predicate Complies(d: Data, site: Value, version: Value) {
    Get(d, "metric") == Str(COMPLIANCE) && Get(d, "subject_id") == site && Get(d, "standard_version_id") == version
  }

  /** The compliance observation that counts: the latest, and the first of several equally late. */
  function Compliance(c: Reading, os: seq<Entity>, site: Value, version: Value): Option<Entity> {
    if os == [] then None
    else
      var prev, o := Compliance(c, os[..|os| - 1], site, version), os[|os| - 1];
      if Complies(o.data, site, version) && (prev.None? || When(c, o.data) > When(c, prev.value.data)) then Some(o) else prev
  }

  datatype Why = Noncompliant | Unobserved
  datatype Drift = Drift(site: Id, siteName: Value, version: Id, why: Why, observation: Option<Id>)

  function NameOf(e: Entity): Value { Get(e.fields, "name") }

  function Drifted(site: Entity, version: Id, o: Option<Entity>): seq<Drift> {
    if o.Some? && Get(o.value.data, "value") == Num(1.0) then []
    else [Drift(site.id, NameOf(site), version, if o.Some? then Noncompliant else Unobserved,
                if o.Some? then Some(o.value.id) else None)]
  }

  function SiteDrift(c: Reading, os: seq<Entity>, site: Entity, hops: seq<Hop>): seq<Drift> {
    if hops == [] then []
    else
      var version := hops[|hops| - 1].entity.id;
      SiteDrift(c, os, site, hops[..|hops| - 1]) + Drifted(site, version, Compliance(c, os, Str(site.id), Str(version)))
  }

  ghost function AllDrift(c: Reading, g: Graph, sites: seq<Entity>): seq<Drift>
    requires WellFormed(g)
  {
    if sites == [] then []
    else
      var site := sites[|sites| - 1];
      AllDrift(c, g, sites[..|sites| - 1]) + SiteDrift(c, Observations(g), site, Desired(g, site.id))
  }

  ghost function StandardDriftOf(c: Reading, g: Graph): seq<Drift>
    requires WellFormed(g)
  {
    AllDrift(c, g, Sites(g))
  }

  // ------------------------------------------------------------------ the classes

  type Buckets = map<Value, map<Value, Data>>

  function Lookup(b: Buckets, subject: Value, metric: Value): Option<Data> {
    if subject in b && metric in b[subject] then Some(b[subject][metric]) else None
  }

  function FactsIn(b: Buckets, site: Id): Facts {
    Facts(Lookup(b, Str(site), Str("llms_txt.present")), Lookup(b, Str(site), Str("robots_txt.present")),
          Lookup(b, Str(site), Str("http.status")), Lookup(b, Str(site), Str("api.calls")))
  }

  /** The buckets with one more observation, which must say what it is of. */
  function Noted(c: Reading, b: Buckets, data: Data): Buckets {
    var subject, metric := Get(data, "subject_id"), Get(data, "metric");
    var bucket := if subject in b then b[subject] else map[];
    b[subject := if metric !in bucket || When(c, data) >= When(c, bucket[metric]) then bucket[metric := data] else bucket]
  }

  lemma LoadStep(c: Reading, b: Buckets, os: seq<Entity>, o: Entity)
    requires Loaded(c, b, os)
    ensures var subject, metric := Get(o.data, "subject_id"), Get(o.data, "metric");
            Loaded(c, if Truthy(subject) && Truthy(metric) then Noted(c, b, o.data) else b, os + [o])
  {
    assert (os + [o])[..|os|] == os;
    var subject, metric := Get(o.data, "subject_id"), Get(o.data, "metric");
    if Truthy(subject) && Truthy(metric) {
      assert Lookup(b, subject, metric) == Latest(c, os, subject, metric);
    }
  }

  lemma FactsLoaded(c: Reading, b: Buckets, os: seq<Entity>, site: Id)
    requires Loaded(c, b, os) && site != ""
    ensures FactsIn(b, site) == FactsOf(c, os, site)
  {}

  ghost predicate Loaded(c: Reading, b: Buckets, os: seq<Entity>) {
    forall subject, metric :: Truthy(subject) && Truthy(metric) ==> Lookup(b, subject, metric) == Latest(c, os, subject, metric)
  }

  class ConformanceEvaluator {
    const graph: InMemoryGraphStore
    const reading: Reading

    constructor (graph: InMemoryGraphStore, reading: Reading)
      ensures this.graph == graph && this.reading == reading
    {
      this.graph, this.reading := graph, reading;
    }

    /** Subject and metric to the latest observation, in one pass. */
    method LoadLatestObservations() returns (latest: Buckets)
      requires graph.Valid()
      ensures Loaded(reading, latest, Observations(graph.View()))
    {
      var obs := graph.FindEntities(Some(OBSERVATION));
      latest := map[];
      for n := 0 to |obs|
        invariant Loaded(reading, latest, obs[..n])
      {
        LoadStep(reading, latest, obs[..n], obs[n]);
        assert obs[..n + 1] == obs[..n] + [obs[n]];
        var data := obs[n].data;
        var subject, metric := Get(data, "subject_id"), Get(data, "metric");
        if !Truthy(subject) || !Truthy(metric) { continue; }
        var bucket := if subject in latest then latest[subject] else map[];
        if metric !in bucket || When(reading, data) >= When(reading, bucket[metric]) {
          bucket := bucket[metric := data];
        }
        latest := latest[subject := bucket];
      }
      assert obs[..|obs|] == obs;
    }

    method EvaluateSite(site: Entity) returns (results: seq<Verdict>)
      requires graph.Valid() && site.id != ""
      ensures results == Evaluation(reading, graph.View(), site)
    {
      var all := LoadLatestObservations();
      FactsLoaded(reading, all, Observations(graph.View()), site.id);
      var desired := graph.FindNeighbors(site.id, Out, Some({CONFORMS_TO}));
      results := JudgeAll(FactsIn(all, site.id), site, desired);
    }

    method JudgeAll(facts: Facts, site: Entity, desired: seq<Hop>) returns (results: seq<Verdict>)
      ensures results == Judged(reading, facts, site, desired)
    {
      results := [];
      for n := 0 to |desired|
        invariant results == Judged(reading, facts, site, desired[..n])
      {
        var verdict := JudgeVersion(facts, site, desired[n].entity);
        results := results + [verdict];
      }
      assert desired[..|desired|] == desired;
    }

    /** The two lists of failed requirements, in one pass over the version's requirements. */
    method JudgeVersion(facts: Facts, site: Entity, version: Entity) returns (v: Verdict)
      ensures v == Judge(reading, facts, site, version)
    {
      var requirements := RequirementsOf(version);
      var failedRequired, failedSoft := [], [];
      for n := 0 to |requirements|
        invariant failedRequired == Failed(reading, facts, site, requirements[..n], true)
        invariant failedSoft == Failed(reading, facts, site, requirements[..n], false)
      {
        assert requirements[..n + 1][..n] == requirements[..n];
        var r := requirements[n];
        if r.severity == Str("required-if-applicable") && !IsApplicable(r.id, site) { continue; }
        if !Passes(reading, facts, r.id) {
          if r.severity == Str("required") {
            failedRequired := failedRequired + [r.id];
          } else {
            failedSoft := failedSoft + [r.id];
          }
        }
      }
      assert requirements[..|requirements|] == requirements;
      v := Verdict(site.id, version.id, failedRequired, failedSoft);
    }

    /** Emit the verdicts as observations; a projection that throws ends it. */
    method RecordCompliance(bus: Bus.EventBus, results: seq<Verdict>, at: seq<string>) returns (ok: bool)
      requires bus.Valid() && |at| == |results|
      modifies bus, bus.graph
      ensures bus.Valid()
      ensures Outcome(bus.graph.View(), ok) == RecordAll(old(bus.graph.View()), results, at)
    {
      ghost var g := bus.graph.View();
      for n := 0 to |results|
        invariant bus.Valid()
        invariant Outcome(bus.graph.View(), true) == RecordAll(g, results[..n], at[..n])
      {
        assert results[..n + 1][..n] == results[..n] && at[..n + 1][..n] == at[..n];
        ok := bus.AppendAndProject(RecordEvent(results[n], at[n]));
        if !ok {
          RecordStops(g, results, at, n + 1);
          return;
        }
      }
      assert results[..|results|] == results && at[..|at|] == at;
      ok := true;
    }
  }

  /** One emit after another, until one throws. */
  function RecordStep(): (Outcome, Verdict, string) -> Outcome {
    (r: Outcome, v: Verdict, at: string) => if r.ok then Project(r.graph, RecordEvent(v, at)) else r
  }

  function Fold(step: (Outcome, Verdict, string) -> Outcome, r: Outcome, vs: seq<Verdict>, at: seq<string>): Outcome
    requires |vs| == |at|
  {
    if vs == [] then r
    else
      var n := |vs| - 1;
      step(Fold(step, r, vs[..n], at[..n]), vs[n], at[n])
  }

  function RecordAll(g: Graph, vs: seq<Verdict>, at: seq<string>): Outcome
    requires |vs| == |at|
  {
    Fold(RecordStep(), Outcome(g, true), vs, at)
  }

  lemma {:induction false} FoldConcat(step: (Outcome, Verdict, string) -> Outcome, r: Outcome, vs: seq<Verdict>, at: seq<string>,
                                      ws: seq<Verdict>, bt: seq<string>)
    requires |vs| == |at| && |ws| == |bt|
    ensures Fold(step, r, vs + ws, at + bt) == Fold(step, Fold(step, r, vs, at), ws, bt)
  {
    if ws == [] {
      assert vs + ws == vs && at + bt == at;
    } else {
      var n := |ws| - 1;
      FoldConcat(step, r, vs, at, ws[..n], bt[..n]);
      assert (vs + ws)[..|vs + ws| - 1] == vs + ws[..n] && (at + bt)[..|at + bt| - 1] == at + bt[..n];
    }
  }

  /** A throw ends it. */
  lemma {:induction false} FoldStops(step: (Outcome, Verdict, string) -> Outcome, r: Outcome, vs: seq<Verdict>, at: seq<string>)
    requires |vs| == |at| && !r.ok && forall x: Outcome, v, t :: !x.ok ==> step(x, v, t) == x
    ensures Fold(step, r, vs, at) == r
  {
    if vs != [] { FoldStops(step, r, vs[..|vs| - 1], at[..|vs| - 1]); }
  }

  lemma RecordStops(g: Graph, vs: seq<Verdict>, at: seq<string>, n: nat)
    requires n <= |vs| == |at| && !RecordAll(g, vs[..n], at[..n]).ok
    ensures RecordAll(g, vs, at) == RecordAll(g, vs[..n], at[..n])
  {
    assert vs == vs[..n] + vs[n..] && at == at[..n] + at[n..];
    FoldConcat(RecordStep(), Outcome(g, true), vs[..n], at[..n], vs[n..], at[n..]);
    FoldStops(RecordStep(), RecordAll(g, vs[..n], at[..n]), vs[n..], at[n..]);
  }

  type ByPair = map<(Value, Value), Entity>

  ghost predicate Collected(c: Reading, m: ByPair, os: seq<Entity>) {
    forall site, version ::
      (if (site, version) in m then Some(m[(site, version)]) else None) == Compliance(c, os, site, version)
  }

  class Reconciler {
    const graph: InMemoryGraphStore
    const reading: Reading

    constructor (graph: InMemoryGraphStore, reading: Reading)
      ensures this.graph == graph && this.reading == reading
    {
      this.graph, this.reading := graph, reading;
    }

    method CollectCompliance() returns (compliance: ByPair)
      requires graph.Valid()
      ensures Collected(reading, compliance, Observations(graph.View()))
    {
      var observations := graph.FindEntities(Some(OBSERVATION));
      compliance := map[];
      for n := 0 to |observations|
        invariant Collected(reading, compliance, observations[..n])
      {
        assert observations[..n + 1][..n] == observations[..n];
        var o := observations[n];
        if Get(o.data, "metric") != Str(COMPLIANCE) { continue; }
        var key := (Get(o.data, "subject_id"), Get(o.data, "standard_version_id"));
        if key !in compliance || When(reading, o.data) > When(reading, compliance[key].data) {
          compliance := compliance[key := o];
        }
      }
      assert observations[..|observations|] == observations;
    }

    method StandardDrift() returns (drift: seq<Drift>)
      requires graph.Valid()
      ensures drift == StandardDriftOf(reading, graph.View())
    {
      var sites := graph.FindEntities(Some(SITE));
      var compliance := CollectCompliance();
      drift := [];
      for n := 0 to |sites|
        invariant drift == AllDrift(reading, graph.View(), sites[..n])
      {
        assert sites[..n + 1][..n] == sites[..n];
        var own := DriftOfSite(compliance, sites[n]);
        drift := drift + own;
      }
      assert sites[..|sites|] == sites;
    }

    method DriftOfSite(compliance: ByPair, site: Entity) returns (drift: seq<Drift>)
      requires graph.Valid() && Collected(reading, compliance, Observations(graph.View()))
      ensures drift == SiteDrift(reading, Observations(graph.View()), site, Desired(graph.View(), site.id))
    {
      var desired := graph.FindNeighbors(site.id, Out, Some({CONFORMS_TO}));
      drift := [];
      for n := 0 to |desired|
        invariant drift == SiteDrift(reading, Observations(graph.View()), site, desired[..n])
      {
        assert desired[..n + 1][..n] == desired[..n];
        var version := desired[n].entity.id;
        var key := (Str(site.id), Str(version));
        var observed := if key in compliance then Some(compliance[key]) else None;
        drift := drift + Drifted(site, version, observed);
      }
      assert desired[..|desired|] == desired;
    }
  }
}
