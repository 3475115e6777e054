/**
 * Record ids are sanitised and not injective: when two pairs of site and version share one, the later record
 * replaces the earlier pair's. This module says exactly when that spoils the drift of a whole pass.
 */
module ConformanceCollisions {
  import opened Values
  import opened GraphModel
  import opened GraphStore
  import opened Projector
  import opened Conformance
  import opened ConformanceDrift

  /** Record ids are not injective: the sites "a-b" and "a_b" write over each other's record. */
  lemma RecordIdsCollide(version: Id)
    ensures RecordId("a-b", version) == RecordId("a_b", version)
  {
    var x, y := "obs_conf_" + "a-b" + "_" + version, "obs_conf_" + "a_b" + "_" + version;
    assert |x| == |y| && forall i :: 0 <= i < |x| ==> i == 10 || x[i] == y[i];
    assert x[10] == '-' && y[10] == '_';
  }

  function PairOf(v: Verdict): (Id, Id) { (v.site, v.version) }

  /** Two verdicts of different pairs share a record id. */
  ghost predicate Clash(vs: seq<Verdict>) {
    exists v, w :: v in vs && w in vs && IdOf(v) == IdOf(w) && PairOf(v) != PairOf(w)
  }

  // ------------------------------------------------------------------ one record

  ghost predicate Tells(e: Entity, v: Verdict) {
    e.typ == OBSERVATION && Complies(e.data, Str(v.site), Str(v.version))
  }

  /** The verdict can be recorded, and no other id holds a record of its pair. */
  ghost predicate Solo(g: Graph, v: Verdict) {
    Fits(g, v) && forall x :: x in g.entities && x != IdOf(v) ==> !Tells(g.entities[x], v)
  }

  /** It stays so whatever else is recorded, under the same id or another. */
  lemma StaysSolo(c: Reading, g: Graph, v: Verdict, at: string, w: Verdict)
    requires Ready(g) && Fits(g, v) && Solo(g, w)
    ensures Solo(Recorded(g, v, at), w)
  {
    RecordedEntities(g, v, at);
    StoredData(c, g, v, at);
    NewEdges(g, v, at);
    if PairOf(v) == PairOf(w) { assert IdOf(v) == IdOf(w); }
  }

  // ------------------------------------------------------------------ all records

  /** The last verdict with the record id. */
  function Owner(vs: seq<Verdict>, id: Id): Option<Verdict> {
    if vs == [] then None
    else if IdOf(vs[|vs| - 1]) == id then Some(vs[|vs| - 1])
    else Owner(vs[..|vs| - 1], id)
  }

  lemma {:induction false} OwnerIs(vs: seq<Verdict>, v: Verdict)
    requires v in vs
    ensures var o := Owner(vs, IdOf(v)); o.Some? && o.value in vs && IdOf(o.value) == IdOf(v)
  {
    SplitLast(vs);
    if IdOf(vs[|vs| - 1]) != IdOf(v) { OwnerIs(vs[..|vs| - 1], v); }
  }

  /** The entity is the verdict's own record. */
  ghost predicate RecordOf(e: Entity, v: Verdict) {
    e.id == IdOf(v) && Tells(e, v) && Get(e.data, "value") == Num(if Compliant(v) then 1.0 else 0.0)
  }

  /** Every record id written so far holds the record of its last verdict. */
  ghost predicate Owned(h: Graph, vs: seq<Verdict>) {
    forall id :: Owner(vs, id).Some? ==> id in h.entities && RecordOf(h.entities[id], Owner(vs, id).value)
  }

  ghost predicate AllSolo(g: Graph, vs: seq<Verdict>) { forall v :: v in vs ==> Solo(g, v) }

  lemma OwnedStep(c: Reading, h: Graph, vs: seq<Verdict>, v: Verdict, at: string)
    requires Owned(h, vs)
    ensures Owned(Recorded(h, v, at), vs + [v])
  {
    RecordedEntities(h, v, at);
    StoredData(c, h, v, at);
    assert (vs + [v])[..|vs|] == vs;
  }

  lemma OneStep(c: Reading, g: Graph, h: Graph, vs: seq<Verdict>, v: Verdict, at: string, all: seq<Verdict>)
    requires Ready(g) && Ready(h) && SameOtherwise(c, g, h) && Owned(h, vs) && AllSolo(h, all) && v in all
    ensures var k := Recorded(h, v, at);
            Project(h, RecordEvent(v, at)) == Outcome(k, true)
            && Ready(k) && SameOtherwise(c, g, k) && Owned(k, vs + [v]) && AllSolo(k, all)
  {
    var k := Recorded(h, v, at);
    RecordProjects(h, v, at);
    StepSame(c, h, v, at);
    SameTransitive(c, g, h, k);
    OwnedStep(c, h, vs, v, at);
    forall w | w in all ensures Solo(k, w) { StaysSolo(c, h, v, at, w); }
  }

  /** Recording verdicts, clashing or not: nothing but compliance changes, and each id is its last verdict's. */
  lemma {:induction false} RecordAllOwns(c: Reading, g: Graph, vs: seq<Verdict>, at: seq<string>, all: seq<Verdict>)
    requires Ready(g) && |vs| == |at| && AllSolo(g, all) && forall v :: v in vs ==> v in all
    ensures var r := RecordAll(g, vs, at);
            r.ok && Ready(r.graph) && SameOtherwise(c, g, r.graph) && Owned(r.graph, vs) && AllSolo(r.graph, all)
  {
    if vs != [] {
      var n := |vs| - 1;
      SplitLast(vs);
      RecordAllOwns(c, g, vs[..n], at[..n], all);
      OneStep(c, g, RecordAll(g, vs[..n], at[..n]).graph, vs[..n], vs[n], at[n], all);
    }
  }

  // ------------------------------------------------------------------ the whole pass

  lemma SiteFollowsSolo(c: Reading, g: Graph, vs: seq<Verdict>, site: Entity, clock: nat -> string)
    requires Ready(g) && AllSolo(g, vs)
    ensures var r := RecordAll(g, vs, Times(clock, 0, |vs|));
            r.ok && WellFormed(r.graph) && Evaluation(c, r.graph, site) == Evaluation(c, g, site)
  {
    var at := Times(clock, 0, |vs|);
    RecordAllOwns(c, g, vs, at, vs);
    SameEvaluation(c, g, RecordAll(g, vs, at).graph, site);
  }

  lemma SoloFront(g: Graph, vs: seq<Verdict>, ws: seq<Verdict>)
    requires AllSolo(g, vs + ws)
    ensures AllSolo(g, vs)
  {
    forall v | v in vs ensures Solo(g, v) { assert v in vs + ws; }
  }

  /** Judging on the changing graph gives the verdicts of the first graph. */
  lemma {:induction false} PassRecordsAll(c: Reading, g: Graph, sites: seq<Entity>, clock: nat -> string)
    requires Ready(g) && AllSolo(g, Verdicts(c, g, sites))
    ensures var vs := Verdicts(c, g, sites);
            var p, r := ConformAll(c, g, sites, clock), RecordAll(g, vs, Times(clock, 0, |vs|));
            p == Pass(r.graph, r.ok, |vs|)
  {
    if sites != [] {
      var front, site := sites[..|sites| - 1], sites[|sites| - 1];
      var vs := Verdicts(c, g, front);
      SoloFront(g, vs, Evaluation(c, g, site));
      PassRecordsAll(c, g, front, clock);
      SiteFollowsSolo(c, g, vs, site, clock);
      PassGrows(c, g, sites, clock, RecordAll(g, vs, Times(clock, 0, |vs|)).graph);
    }
  }

  // ------------------------------------------------------------------ what counts afterwards

  /** The pair's own record is the only one of the pair, so it is the one that counts. */
  lemma OwnedCounts(c: Reading, h: Graph, vs: seq<Verdict>, v: Verdict)
    requires Ready(h) && Owned(h, vs) && Solo(h, v) && v in vs && Owner(vs, IdOf(v)) == Some(v)
    ensures Told(c, h, v)
  {
    var o := h.entities[IdOf(v)];
    assert IdOf(v) in h.entities && RecordOf(o, v);
    OfTypeMembers(h, h.order, OBSERVATION, o);
    forall x | x in Observations(h) && Complies(x.data, Str(v.site), Str(v.version)) ensures x == o {
      OfTypeMembers(h, h.order, OBSERVATION, x);
      assert Tells(h.entities[x.id], v);
    }
    LatestCounts(c, Observations(h), Str(v.site), Str(v.version), o);
  }

  /**
   * A shared record id erases: when the last verdict with the id is another pair's, nothing is left of this
   * pair's record.
   */
  lemma CollisionErases(c: Reading, h: Graph, vs: seq<Verdict>, v: Verdict)
    requires Ready(h) && Owned(h, vs) && Solo(h, v) && v in vs
    requires var o := Owner(vs, IdOf(v)); o.Some? && PairOf(o.value) != PairOf(v)
    ensures Compliance(c, Observations(h), Str(v.site), Str(v.version)) == None
  {
    OwnerIs(vs, v);
    var w := Owner(vs, IdOf(v)).value;
    var o := h.entities[IdOf(v)];
    assert RecordOf(o, w) && !Tells(o, v);
    forall x | x in h.entities ensures !Tells(h.entities[x], v) {}
    NothingCounts(c, h, v);
  }

  lemma NothingCounts(c: Reading, h: Graph, v: Verdict)
    requires WellFormed(h) && forall x :: x in h.entities ==> !Tells(h.entities[x], v)
    ensures Compliance(c, Observations(h), Str(v.site), Str(v.version)) == None
  {
    var r := Compliance(c, Observations(h), Str(v.site), Str(v.version));
    CompliancePick(c, Observations(h), Str(v.site), Str(v.version));
    if r.Some? { OfTypeMembers(h, h.order, OBSERVATION, r.value); }
  }

  // ------------------------------------------------------------------ one verdict per pair

  lemma {:induction false} VerdictFrom(c: Reading, g: Graph, sites: seq<Entity>, v: Verdict) returns (site: Entity)
    requires WellFormed(g) && v in Verdicts(c, g, sites)
    ensures site in sites && v in Evaluation(c, g, site)
  {
    var n := |sites| - 1;
    if v in Evaluation(c, g, sites[n]) { site := sites[n]; } else { site := VerdictFrom(c, g, sites[..n], v); }
  }

  lemma {:induction false} HopsStored(g: Graph, keys: seq<string>, i: nat)
    requires WellFormed(g) && Resolves(g, keys) && i < |OutHops(g, keys, DESIRES)|
    ensures var e := OutHops(g, keys, DESIRES)[i].entity; e.id in g.entities && g.entities[e.id] == e
  {
    if i < |OutHops(g, keys[..|keys| - 1], DESIRES)| { HopsStored(g, keys[..|keys| - 1], i); }
  }

  /** A verdict is judged on one stored site and one stored version. */
  lemma JudgedOn(c: Reading, g: Graph, site: Entity, v: Verdict) returns (i: nat)
    requires WellFormed(g) && v in Evaluation(c, g, site)
    ensures i < |Desired(g, site.id)|
    ensures var e := Desired(g, site.id)[i].entity;
            v == Judge(c, FactsOf(c, Observations(g), site.id), site, e) && e.id in g.entities && g.entities[e.id] == e
  {
    i :| 0 <= i < |Evaluation(c, g, site)| && Evaluation(c, g, site)[i] == v;
    HopsStored(g, Bucket(g.outgoing, site.id), i);
  }

  lemma SamePairSameVerdict(c: Reading, g: Graph, sites: seq<Entity>, v: Verdict, w: Verdict)
    requires WellFormed(g) && forall s :: s in sites ==> s in Sites(g)
    requires v in Verdicts(c, g, sites) && w in Verdicts(c, g, sites) && PairOf(v) == PairOf(w)
    ensures v == w
  {
    var s := VerdictFrom(c, g, sites, v);
    var t := VerdictFrom(c, g, sites, w);
    OfTypeMembers(g, g.order, SITE, s);
    OfTypeMembers(g, g.order, SITE, t);
    var i := JudgedOn(c, g, s, v);
    var j := JudgedOn(c, g, t, w);
  }

  // ------------------------------------------------------------------ the drift

  lemma {:induction false} FailingNoncompliant(site: Entity, vs: seq<Verdict>, d: Drift)
    requires d in Failing(site, vs)
    ensures d.why.Noncompliant?
  {
    var n := |vs| - 1;
    if d in Failing(site, vs[..n]) { FailingNoncompliant(site, vs[..n], d); }
  }

  lemma {:induction false} AllFailingNoncompliant(c: Reading, g: Graph, sites: seq<Entity>, d: Drift)
    requires WellFormed(g) && d in AllFailing(c, g, sites)
    ensures d.why.Noncompliant?
  {
    var n := |sites| - 1;
    if d in AllFailing(c, g, sites[..n]) {
      AllFailingNoncompliant(c, g, sites[..n], d);
    } else {
      FailingNoncompliant(sites[n], Evaluation(c, g, sites[n]), d);
    }
  }

  lemma {:induction false} UnobservedInSite(c: Reading, os: seq<Entity>, site: Entity, hops: seq<Hop>, i: nat)
    returns (d: Drift)
    requires i < |hops| && Compliance(c, os, Str(site.id), Str(hops[i].entity.id)) == None
    ensures d in SiteDrift(c, os, site, hops) && d.why.Unobserved?
  {
    var n := |hops| - 1;
    if i == n {
      d := Drift(site.id, NameOf(site), hops[i].entity.id, Unobserved, None);
    } else {
      d := UnobservedInSite(c, os, site, hops[..n], i);
    }
  }

  lemma {:induction false} UnobservedInAll(c: Reading, h: Graph, sites: seq<Entity>, site: Entity, i: nat) returns (d: Drift)
    requires WellFormed(h) && site in sites && i < |Desired(h, site.id)|
    requires Compliance(c, Observations(h), Str(site.id), Str(Desired(h, site.id)[i].entity.id)) == None
    ensures d in AllDrift(c, h, sites) && d.why.Unobserved?
  {
    var n := |sites| - 1;
    SplitLast(sites);
    if site == sites[n] {
      d := UnobservedInSite(c, Observations(h), site, Desired(h, site.id), i);
    } else {
      d := UnobservedInAll(c, h, sites[..n], site, i);
    }
  }

  /** A clash leaves some verdict's pair without a record. */
  lemma ClashErases(c: Reading, h: Graph, vs: seq<Verdict>) returns (v: Verdict)
    requires Ready(h) && Owned(h, vs) && AllSolo(h, vs) && Clash(vs)
    ensures v in vs && Compliance(c, Observations(h), Str(v.site), Str(v.version)) == None
  {
    var x, y :| x in vs && y in vs && IdOf(x) == IdOf(y) && PairOf(x) != PairOf(y);
    OwnerIs(vs, x);
    v := if PairOf(Owner(vs, IdOf(x)).value) != PairOf(x) then x else y;
    CollisionErases(c, h, vs, v);
  }

  lemma ClashSpoils(c: Reading, g: Graph, h: Graph, sites: seq<Entity>)
    requires Ready(g) && Ready(h) && SameOtherwise(c, g, h) && forall s :: s in sites <==> s in Sites(g)
    requires var vs := Verdicts(c, g, sites); Owned(h, vs) && AllSolo(h, vs) && Clash(vs)
    ensures StandardDriftOf(c, h) != AllFailing(c, g, Sites(g))
  {
    var v := ClashErases(c, h, Verdicts(c, g, sites));
    var s := VerdictFrom(c, g, sites, v);
    var i := JudgedOn(c, g, s, v);
    assert Desired(h, s.id) == Desired(g, s.id);
    var d := UnobservedInAll(c, h, Sites(g), s, i);
    if d in AllFailing(c, g, Sites(g)) { AllFailingNoncompliant(c, g, Sites(g), d); }
  }

  lemma NoClashTells(c: Reading, g: Graph, h: Graph, sites: seq<Entity>)
    requires Ready(g) && Ready(h) && SameOtherwise(c, g, h) && forall s :: s in sites <==> s in Sites(g)
    requires var vs := Verdicts(c, g, sites); Owned(h, vs) && AllSolo(h, vs) && !Clash(vs)
    ensures StandardDriftOf(c, h) == AllFailing(c, g, Sites(g))
  {
    var vs := Verdicts(c, g, sites);
    forall v | v in vs ensures Told(c, h, v) {
      OwnerIs(vs, v);
      SamePairSameVerdict(c, g, sites, v, Owner(vs, IdOf(v)).value);
      OwnedCounts(c, h, vs, v);
    }
    forall s, v | s in Sites(g) && v in Evaluation(c, g, s) ensures v in vs { VerdictIn(c, g, sites, s, v); }
    DriftIsFailing(c, g, h, Sites(g), vs);
  }

  /**
   * The exact condition. Judge and record every site, in any order, on a graph where each verdict can be recorded
   * and no other id holds a record of its pair: the drift is the desired pairs with a failed required check,
   * each pointing at its own record, if and only if no two pairs of the pass share a record id.
   */
  lemma DriftIsFailureIff(c: Reading, g: Graph, sites: seq<Entity>, clock: nat -> string)
    requires Ready(g) && AllSolo(g, Verdicts(c, g, sites)) && forall s :: s in sites <==> s in Sites(g)
    ensures var p := ConformAll(c, g, sites, clock);
            p.ok && (StandardDriftOf(c, p.graph) == AllFailing(c, g, Sites(g)) <==> !Clash(Verdicts(c, g, sites)))
  {
    var vs := Verdicts(c, g, sites);
    var r := RecordAll(g, vs, Times(clock, 0, |vs|));
    PassRecordsAll(c, g, sites, clock);
    RecordAllOwns(c, g, vs, Times(clock, 0, |vs|), vs);
    if Clash(vs) {
      ClashSpoils(c, g, r.graph, sites);
    } else {
      NoClashTells(c, g, r.graph, sites);
    }
  }
}
