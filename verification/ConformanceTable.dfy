/**
 * The table of checks, told from the observations themselves: which observation stands for a metric, what each
 * requirement asks of it, and what the verdicts, the records and the drift then are.
 */
module ConformanceTable {
  import opened Values
  import opened GraphModel
  import opened GraphStore
  import opened Projector
  import opened Conformance
  import opened ConformanceDrift

  // ------------------------------------------------------------------ the observation that stands

  predicate Observes(o: Entity, site: Id, metric: string) {
    && "subject_id" in o.data && o.data["subject_id"] == Str(site)
    && "metric" in o.data && o.data["metric"] == Str(metric)
  }

  function TimeOf(c: Reading, o: Entity): real {
    c.when(if "observed_at" in o.data then o.data["observed_at"] else Undefined)
  }

  /** No observation of the metric is later, and none behind it is as late. */
  ghost predicate Stands(c: Reading, os: seq<Entity>, site: Id, metric: string, i: int) {
    && 0 <= i < |os| && Observes(os[i], site, metric)
    && forall j :: 0 <= j < |os| && Observes(os[j], site, metric) ==>
         TimeOf(c, os[j]) <= TimeOf(c, os[i]) && (j > i ==> TimeOf(c, os[j]) < TimeOf(c, os[i]))
  }

  lemma ObservesIff(o: Entity, site: Id, metric: string)
    ensures Observes(o, site, metric) <==> Measures(o.data, Str(site), Str(metric))
  {}

  lemma StandsIff(c: Reading, os: seq<Entity>, site: Id, metric: string, i: nat)
    ensures Stands(c, os, site, metric, i) <==> Wins(c, os, i, Str(site), Str(metric))
  {
    forall j | 0 <= j < |os| ensures Observes(os[j], site, metric) <==> Measures(os[j].data, Str(site), Str(metric)) {
      ObservesIff(os[j], site, metric);
    }
    if Wins(c, os, i, Str(site), Str(metric)) {
      assert forall j :: 0 <= j < |os| && Measures(os[j].data, Str(site), Str(metric)) ==> Yields(c, os, j, i);
    }
  }

  lemma OneStands(c: Reading, os: seq<Entity>, site: Id, metric: string, i: int, k: int)
    requires Stands(c, os, site, metric, i) && Stands(c, os, site, metric, k)
    ensures i == k
  {}

  /** One observation stands if any is of the metric, and it is the one the checks look at. */
  lemma LatestStands(c: Reading, os: seq<Entity>, site: Id, metric: string)
    ensures var d := Latest(c, os, Str(site), Str(metric));
            && (d.Some? <==> exists o :: o in os && Observes(o, site, metric))
            && (d.Some? <==> exists i :: Stands(c, os, site, metric, i))
            && (forall i :: Stands(c, os, site, metric, i) ==> d == Some(os[i].data))
  {
    LatestMissing(c, os, Str(site), Str(metric));
    var i := LatestIff(c, os, Str(site), Str(metric));
    forall k: int | Stands(c, os, site, metric, k)
      ensures Latest(c, os, Str(site), Str(metric)) == Some(os[k].data)
    {
      assert Measures(os[k].data, Str(site), Str(metric)) && os[k] in os;
      StandsIff(c, os, site, metric, i);
      assert Stands(c, os, site, metric, i);
      OneStands(c, os, site, metric, i, k);
    }
    if Latest(c, os, Str(site), Str(metric)).Some? { StandsIff(c, os, site, metric, i); }
  }

  // ------------------------------------------------------------------ what a requirement asks

  function Worth(o: Entity): Value { if "value" in o.data then o.data["value"] else Undefined }

  /** The standing observation of the metric says 1. */
  ghost predicate SaysOne(c: Reading, os: seq<Entity>, site: Id, metric: string) {
    exists i :: Stands(c, os, site, metric, i) && Worth(os[i]) == Num(1.0)
  }

  predicate Sound(c: Reading, status: Value) {
    c.number(status).Some? && c.number(status).value > 0.0 && c.number(status).value < 500.0
  }

  /** The standing status is a number above 0 and below 500. */
  ghost predicate Answers(c: Reading, os: seq<Entity>, site: Id) {
    exists i :: Stands(c, os, site, "http.status", i) && Sound(c, Worth(os[i]))
  }

  ghost predicate Met(c: Reading, os: seq<Entity>, site: Id, requirement: Value) {
    && (requirement == Str("llms-txt") ==> SaysOne(c, os, site, "llms_txt.present"))
    && (requirement == Str("robots-txt") ==> SaysOne(c, os, site, "robots_txt.present"))
    && (requirement == Str("agent-discovery-files") ==>
          SaysOne(c, os, site, "llms_txt.present") && SaysOne(c, os, site, "robots_txt.present"))
    && (requirement == Str("http-health") ==> Answers(c, os, site))
    && (requirement == Str("usage-telemetry") ==> exists o :: o in os && Observes(o, site, "api.calls"))
  }

  lemma OnlyOne(c: Reading, os: seq<Entity>, site: Id, metric: string, i: int)
    requires Stands(c, os, site, metric, i)
    ensures forall k :: Stands(c, os, site, metric, k) ==> k == i
  {
    forall k | Stands(c, os, site, metric, k) ensures k == i { OneStands(c, os, site, metric, i, k); }
  }

  lemma SaysOneIff(c: Reading, os: seq<Entity>, site: Id, metric: string)
    ensures SaysOne(c, os, site, metric) <==> IsOne(Latest(c, os, Str(site), Str(metric)))
  {
    LatestStands(c, os, site, metric);
    if i :| Stands(c, os, site, metric, i) {
      OnlyOne(c, os, site, metric, i);
      assert SaysOne(c, os, site, metric) <==> Worth(os[i]) == Num(1.0);
    }
  }

  lemma AnswersIff(c: Reading, os: seq<Entity>, site: Id)
    ensures Answers(c, os, site) <==> Healthy(c, Latest(c, os, Str(site), Str("http.status")))
  {
    LatestStands(c, os, site, "http.status");
    if i :| Stands(c, os, site, "http.status", i) {
      OnlyOne(c, os, site, "http.status", i);
      assert Answers(c, os, site) <==> Sound(c, Worth(os[i]));
    }
  }

  lemma MetIff(c: Reading, os: seq<Entity>, site: Id, requirement: Value)
    ensures Met(c, os, site, requirement) <==> Passes(c, FactsOf(c, os, site), requirement)
  {
    SaysOneIff(c, os, site, "llms_txt.present");
    SaysOneIff(c, os, site, "robots_txt.present");
    AnswersIff(c, os, site);
    LatestStands(c, os, site, "api.calls");
  }

  // ------------------------------------------------------------------ the verdict

  function MemberOf(v: Value, key: string): Value { if v.Obj? && key in v.fields then v.fields[key] else Undefined }

  /** The version lists the requirement with this severity. */
  ghost predicate Demands(version: Entity, requirement: Value, severity: Value) {
    && "requirements" in version.data && version.data["requirements"].List?
    && exists item :: item in version.data["requirements"].items
                      && MemberOf(item, "id") == requirement && MemberOf(item, "severity") == severity
  }

  /** Telemetry is asked of worker sites that are not exempt; everything else of every site. */
  predicate Applies(site: Entity, requirement: Value) {
    requirement == Str("usage-telemetry") ==>
      && !("telemetry_exemptions" in site.data && site.data["telemetry_exemptions"].List?
           && Str("usage-telemetry") in site.data["telemetry_exemptions"].items)
      && (|| ("runtime" in site.data && site.data["runtime"] == Str("cloudflare-workers"))
          || ("cloudflare_worker" in site.data
              && site.data["cloudflare_worker"] !in {Undefined, Null, Bool(false), Num(0.0), Str("")}))
  }

  /** The version asks it of the site, and the site does not meet it. */
  ghost predicate Misses(c: Reading, os: seq<Entity>, site: Entity, version: Entity, requirement: Value, severity: Value) {
    && Demands(version, requirement, severity) && !Met(c, os, site.id, requirement)
    && (severity == Str("required-if-applicable") ==> Applies(site, requirement))
  }

  lemma AppliesIff(site: Entity, requirement: Value)
    ensures Applies(site, requirement) <==> IsApplicable(requirement, site)
  {}

  lemma DemandsIff(version: Entity, requirement: Value, severity: Value)
    ensures Demands(version, requirement, severity) <==> Requirement(requirement, severity) in RequirementsOf(version)
  {
    var rs := RequirementsOf(version);
    if Demands(version, requirement, severity) {
      var items := version.data["requirements"].items;
      var i :| 0 <= i < |items| && MemberOf(items[i], "id") == requirement && MemberOf(items[i], "severity") == severity;
      assert rs[i] == Requirement(requirement, severity);
    }
    if Requirement(requirement, severity) in rs {
      var i :| 0 <= i < |rs| && rs[i] == Requirement(requirement, severity);
      assert version.data["requirements"].items[i] in version.data["requirements"].items;
    }
  }

  lemma {:induction false} FailedMembers(c: Reading, f: Facts, site: Entity, rs: seq<Requirement>, required: bool, id: Value)
    ensures id in Failed(c, f, site, rs, required) <==>
              exists r :: r in rs && r.id == id && Conformance.Fails(c, f, site, r) && (r.severity == Str("required")) == required
  {
    if rs != [] {
      FailedMembers(c, f, site, rs[..|rs| - 1], required, id);
      SplitLast(rs);
    }
  }

  lemma FailsIff(c: Reading, os: seq<Entity>, site: Entity, version: Entity, r: Requirement)
    ensures r in RequirementsOf(version) && Conformance.Fails(c, FactsOf(c, os, site.id), site, r) <==>
              Misses(c, os, site, version, r.id, r.severity)
  {
    DemandsIff(version, r.id, r.severity);
    MetIff(c, os, site.id, r.id);
    AppliesIff(site, r.id);
  }

  lemma ListedIff(c: Reading, os: seq<Entity>, site: Entity, version: Entity, required: bool, id: Value)
    ensures id in Failed(c, FactsOf(c, os, site.id), site, RequirementsOf(version), required) <==>
              exists severity :: Misses(c, os, site, version, id, severity) && (severity == Str("required")) == required
  {
    var f, rs := FactsOf(c, os, site.id), RequirementsOf(version);
    FailedMembers(c, f, site, rs, required, id);
    forall severity
      ensures Requirement(id, severity) in rs && Conformance.Fails(c, f, site, Requirement(id, severity)) <==>
                Misses(c, os, site, version, id, severity)
    {
      FailsIff(c, os, site, version, Requirement(id, severity));
    }
    if r :| r in rs && r.id == id && Conformance.Fails(c, f, site, r) && (r.severity == Str("required")) == required {
      assert Requirement(id, r.severity) == r;
      assert Misses(c, os, site, version, id, r.severity);
    }
  }

  /** The two lists of a verdict hold what the site misses: the required, and all the rest that applies. */
  lemma VerdictIs(c: Reading, os: seq<Entity>, site: Entity, version: Entity)
    ensures var v := Judge(c, FactsOf(c, os, site.id), site, version);
            && v.site == site.id && v.version == version.id
            && (forall id :: id in v.failedRequired <==> Misses(c, os, site, version, id, Str("required")))
            && (forall id :: id in v.failedSoft <==>
                  exists severity :: severity != Str("required") && Misses(c, os, site, version, id, severity))
            && (Compliant(v) <==> forall id :: Demands(version, id, Str("required")) ==> Met(c, os, site.id, id))
  {
    var v := Judge(c, FactsOf(c, os, site.id), site, version);
    forall id
      ensures id in v.failedRequired <==> Misses(c, os, site, version, id, Str("required"))
      ensures id in v.failedSoft <==>
                exists severity :: severity != Str("required") && Misses(c, os, site, version, id, severity)
    {
      ListedIff(c, os, site, version, true, id);
      ListedIff(c, os, site, version, false, id);
    }
    if Compliant(v) {
      forall id | Demands(version, id, Str("required")) ensures Met(c, os, site.id, id) {
        assert id !in v.failedRequired;
      }
    } else {
      assert v.failedRequired[0] in v.failedRequired;
    }
  }

  // ------------------------------------------------------------------ the record and the drift

  /** The entity holds the verdict: the pair, 1 if nothing required failed and 0 otherwise, and both lists. */
  predicate Holds(o: Entity, v: Verdict, at: string) {
    && o.typ == "Observation" && Observes(o, v.site, "standard.compliance")
    && Worth(o) == Num(if v.failedRequired == [] then 1.0 else 0.0)
    && Get(o.data, "standard_version_id") == Str(v.version)
    && Get(o.data, "sensor_id") == Str("sensor_conformance") && Get(o.data, "observed_at") == Str(at)
    && Get(o.data, "dimensions")
         == Obj(map["failed_required" := List(v.failedRequired), "failed_recommended" := List(v.failedSoft)])
  }

  lemma NodeHolds(v: Verdict, at: string)
    ensures Holds(ConformanceDrift.Node(v, at), v, at)
  {}

  lemma MergedHolds(g: Graph, e: Entity, v: Verdict, at: string)
    requires Holds(e, v, at)
    ensures Holds(Upsert(g, e).entities[e.id], v, at)
  {}

  /** What a recorded verdict reads afterwards. */
  lemma RecordReads(g: Graph, v: Verdict, at: string)
    requires SENSOR in g.entities && v.site in g.entities && v.site != ""
    ensures var r := Project(g, RecordEvent(v, at));
            r.ok && RecordId(v.site, v.version) in r.graph.entities
            && Holds(r.graph.entities[RecordId(v.site, v.version)], v, at)
  {
    RecordProjects(g, v, at);
    NodeHolds(v, at);
    MergedHolds(g, ConformanceDrift.Node(v, at), v, at);
  }

  predicate Plain(s: string) {
    forall i :: 0 <= i < |s| ==> 'a' <= s[i] <= 'z' || 'A' <= s[i] <= 'Z' || '0' <= s[i] <= '9' || s[i] == '_'
  }

  /** The record of a pair of plain ids is named by them. */
  lemma PlainRecordId(site: Id, version: Id)
    requires Plain(site) && Plain(version)
    ensures RecordId(site, version) == "obs_conf_" + site + "_" + version
  {
    var name := "obs_conf_" + site + "_" + version;
    assert Plain("obs_conf_") && Plain("obs_conf_" + site) && Plain("obs_conf_" + site + "_");
    assert Plain(name);
  }

  /** The site misses something the version requires. */
  ghost predicate Short(c: Reading, g: Graph, site: Entity, version: Entity)
    requires WellFormed(g)
  {
    exists requirement ::
      Demands(version, requirement, Str("required")) && !Met(c, Observations(g), site.id, requirement)
  }

  function EntryOf(site: Entity, version: Id): Drift {
    Drift(site.id, if "name" in site.fields then site.fields["name"] else Undefined, version, Noncompliant,
          Some(RecordId(site.id, version)))
  }

  lemma {:induction false} FailingMembers(site: Entity, vs: seq<Verdict>, d: Drift)
    requires forall v :: v in vs ==> v.site == site.id
    ensures d in Failing(site, vs) <==> exists v :: v in vs && !Compliant(v) && d == EntryOf(site, v.version)
  {
    if vs != [] {
      SplitLast(vs);
      FailingMembers(site, vs[..|vs| - 1], d);
    }
  }

  lemma {:induction false} AllFailingMembers(c: Reading, g: Graph, sites: seq<Entity>, d: Drift)
    requires WellFormed(g)
    ensures d in AllFailing(c, g, sites) <==> exists s :: s in sites && d in Failing(s, Evaluation(c, g, s))
  {
    if sites != [] {
      AllFailingMembers(c, g, sites[..|sites| - 1], d);
      SplitLast(sites);
    }
  }

  /** Verdicts told one by one: entry `i` is of the `i`th version, and compliant exactly if nothing is missed. */
  ghost predicate Judges(c: Reading, g: Graph, site: Entity, hops: seq<Hop>, vs: seq<Verdict>)
    requires WellFormed(g)
  {
    && |vs| == |hops|
    && forall i :: 0 <= i < |hops| ==>
         vs[i].site == site.id && vs[i].version == hops[i].entity.id
         && (Compliant(vs[i]) <==> !Short(c, g, site, hops[i].entity))
  }

  lemma EvaluationJudges(c: Reading, g: Graph, site: Entity)
    requires WellFormed(g)
    ensures Judges(c, g, site, Desired(g, site.id), Evaluation(c, g, site))
  {
    var hops := Desired(g, site.id);
    forall i | 0 <= i < |hops|
      ensures var v := Evaluation(c, g, site)[i];
              v.site == site.id && v.version == hops[i].entity.id && (Compliant(v) <==> !Short(c, g, site, hops[i].entity))
    {
      VerdictIs(c, Observations(g), site, hops[i].entity);
    }
  }

  lemma JudgedMembers(c: Reading, g: Graph, site: Entity, hops: seq<Hop>, vs: seq<Verdict>, d: Drift)
    requires WellFormed(g) && Judges(c, g, site, hops, vs)
    ensures (exists v :: v in vs && !Compliant(v) && d == EntryOf(site, v.version)) <==>
              exists h :: h in hops && Short(c, g, site, h.entity) && d == EntryOf(site, h.entity.id)
  {
    if v :| v in vs && !Compliant(v) && d == EntryOf(site, v.version) {
      var i :| 0 <= i < |vs| && vs[i] == v;
      assert hops[i] in hops;
    }
    if h :| h in hops && Short(c, g, site, h.entity) && d == EntryOf(site, h.entity.id) {
      var i :| 0 <= i < |hops| && hops[i] == h;
      assert vs[i] in vs;
    }
  }

  lemma SiteFailingMembers(c: Reading, g: Graph, site: Entity, d: Drift)
    requires WellFormed(g)
    ensures d in Failing(site, Evaluation(c, g, site)) <==>
              exists h :: h in Desired(g, site.id) && Short(c, g, site, h.entity) && d == EntryOf(site, h.entity.id)
  {
    EvaluationJudges(c, g, site);
    FailingMembers(site, Evaluation(c, g, site), d);
    JudgedMembers(c, g, site, Desired(g, site.id), Evaluation(c, g, site), d);
  }

  /** The entity is a stored site. */
  predicate IsSite(g: Graph, s: Entity) { s.id in g.entities && g.entities[s.id] == s && s.typ == "Site" }

  /** The site is linked to the stored version as one it has to conform to. */
  predicate Desires(g: Graph, s: Entity, v: Entity) {
    var key := Key(s.id, "CONFORMS_TO", v.id);
    && v.id in g.entities && g.entities[v.id] == v
    && key in g.edges && g.edges[key].src == s.id && g.edges[key].kind == "CONFORMS_TO" && g.edges[key].dst == v.id
  }

  lemma SitesAre(g: Graph, s: Entity)
    requires WellFormed(g)
    ensures s in Sites(g) <==> IsSite(g, s)
  {
    OfTypeMembers(g, g.order, SITE, s);
  }

  lemma DesiredAre(g: Graph, s: Entity, v: Entity)
    requires WellFormed(g) && IndexExact(g)
    ensures (exists h :: h in Desired(g, s.id) && h.entity == v) <==> Desires(g, s, v)
  {
    if h :| h in Desired(g, s.id) && h.entity == v {
      NeighborsAreFilteredEdges(g, s.id, Out, Some({CONFORMS_TO}), h);
      assert Desires(g, s, v);
    }
    if Desires(g, s, v) {
      var h := Hop(g.edges[Key(s.id, "CONFORMS_TO", v.id)], v);
      assert OutHop(g, s.id, Some({CONFORMS_TO}), h);
      NeighborsAreFilteredEdges(g, s.id, Out, Some({CONFORMS_TO}), h);
      assert h in Desired(g, s.id) && h.entity == v;
    }
  }

  /**
   * After a pass over every site, the drift has an entry for a site and a standard version exactly if the site
   * desires the version and does not meet something the version requires.
   */
  lemma DriftIs(c: Reading, g: Graph, sites: seq<Entity>, clock: nat -> string, d: Drift)
    requires Ready(g) && IndexExact(g) && AllPending(c, g, Verdicts(c, g, sites), Times(clock, 0, |Verdicts(c, g, sites)|))
    requires forall s :: s in Sites(g) ==> s in sites
    ensures var p := ConformAll(c, g, sites, clock);
            p.ok && WellFormed(p.graph)
            && (d in StandardDriftOf(c, p.graph) <==>
                  exists s, v :: IsSite(g, s) && Desires(g, s, v) && Short(c, g, s, v) && d == EntryOf(s, v.id))
  {
    DriftIsExactlyFailure(c, g, sites, clock);
    AllFailingMembers(c, g, Sites(g), d);
    forall s
      ensures s in Sites(g) && d in Failing(s, Evaluation(c, g, s)) <==>
                IsSite(g, s) && exists v :: Desires(g, s, v) && Short(c, g, s, v) && d == EntryOf(s, v.id)
    {
      SitesAre(g, s);
      SiteFailingAre(c, g, s, d);
    }
  }

  lemma SiteFailingAre(c: Reading, g: Graph, s: Entity, d: Drift)
    requires WellFormed(g) && IndexExact(g)
    ensures d in Failing(s, Evaluation(c, g, s)) <==>
              exists v :: Desires(g, s, v) && Short(c, g, s, v) && d == EntryOf(s, v.id)
  {
    SiteFailingMembers(c, g, s, d);
    forall v ensures (exists h :: h in Desired(g, s.id) && h.entity == v) <==> Desires(g, s, v) { DesiredAre(g, s, v); }
    if h :| h in Desired(g, s.id) && Short(c, g, s, h.entity) && d == EntryOf(s, h.entity.id) {
      assert Desires(g, s, h.entity);
    }
  }
}
