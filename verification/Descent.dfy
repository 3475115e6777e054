/**
 * What a whole log leaves in the graph, told from its events alone: which ids are stored, which edges are drawn, and
 * which ids lie downstream of which. The last theorem is the lineage the attribution rests on: from a generator over
 * idea, build, product and site down to an observation.
 */
module Descent {
  import opened Values
  import opened GraphModel
  import opened Projector
  import opened Paths
  import opened Search
  import opened Attribution
  import opened Lineage
  import Replay

  // ------------------------------------------------------------------ ids and edges of a log

  ghost predicate AllSeparatorFree(log: seq<Event>) { forall i :: 0 <= i < |log| ==> SeparatorFree(log[i]) }

  /** One of the first `n` events stores the id. */
  ghost predicate Stored(log: seq<Event>, n: nat, id: Id)
    requires n <= |log|
  {
    exists i :: 0 <= i < n && TypeOf(log[i].typ).Some? && IdOf(log[i]) == id
  }

  /** Both ends of an edge are stored by the time event `i` draws its links. */
  ghost predicate Ready(log: seq<Event>, i: nat, s: Id, d: Id)
    requires i < |log|
  {
    Stored(log, i + 1, s) && Stored(log, i + 1, d)
  }

  /** Event `i` has an id if it stores anything, and every end it requires is stored. */
  ghost predicate Admitted(log: seq<Event>, i: nat)
    requires i < |log|
  {
    && (TypeOf(log[i].typ).Some? ==> IdOf(log[i]) != "")
    && forall s, k, d :: Asks(log[i], s, k, d) && !Optional(log[i].typ, k) ==> Ready(log, i, s, d)
  }

  /** Event `i` asks for the edge, and finds its ends. */
  ghost predicate Draws(log: seq<Event>, i: nat, s: Id, k: string, d: Id)
    requires i < |log|
  {
    Asks(log[i], s, k, d) && Ready(log, i, s, d)
  }

  /** One of the first `n` events draws the edge. */
  ghost predicate DrawnBy(log: seq<Event>, n: nat, s: Id, k: string, d: Id)
    requires n <= |log|
  {
    exists i :: 0 <= i < n && Draws(log, i, s, k, d)
  }

  ghost predicate AllAdmitted(log: seq<Event>, n: nat)
    requires n <= |log|
  {
    forall i :: 0 <= i < n ==> Admitted(log, i)
  }

  /** What projecting the first `n` events comes to. Sealed, to be used whole. */
  ghost predicate Tells(log: seq<Event>, n: nat, r: Outcome)
    requires n <= |log|
  {
    forall mark {:trigger Unsealed(mark)} :: Unsealed(mark) ==>
      && WellFormed(r.graph) && CleanEdges(r.graph)
      && (r.ok <==> AllAdmitted(log, n))
      && (r.ok ==>
            && (forall id :: id in r.graph.entities <==> Stored(log, n, id))
            && (forall s, k, d :: Linked(r.graph, s, k, d) <==> DrawnBy(log, n, s, k, d)))
  }

  lemma StoredSnoc(log: seq<Event>, n: nat, id: Id)
    requires n < |log|
    ensures Stored(log, n + 1, id) <==> Stored(log, n, id) || (TypeOf(log[n].typ).Some? && IdOf(log[n]) == id)
  {}

  lemma DrawnSnoc(log: seq<Event>, n: nat, s: Id, k: string, d: Id)
    requires n < |log|
    ensures DrawnBy(log, n + 1, s, k, d) <==> DrawnBy(log, n, s, k, d) || Draws(log, n, s, k, d)
  {}

  /** A sealed account, opened at one id and one edge. */
  lemma TellsAt(log: seq<Event>, n: nat, g: Graph, s: Id, k: string, d: Id)
    requires n <= |log| && Tells(log, n, Outcome(g, true))
    ensures s in g.entities <==> Stored(log, n, s)
    ensures d in g.entities <==> Stored(log, n, d)
    ensures Linked(g, s, k, d) <==> DrawnBy(log, n, s, k, d)
  {
    assert Unsealed(true);
  }

  lemma FollowsAt(g: Graph, e: Event, r: Outcome, s: Id, k: string, d: Id)
    requires EdgesFollow(g, e, r) && r.ok
    ensures Linked(r.graph, s, k, d) <==> Linked(g, s, k, d) || (Asks(e, s, k, d) && Linked(r.graph, s, k, d))
    ensures Asks(e, s, k, d) && Known(g, e, s) && Known(g, e, d) ==> Linked(r.graph, s, k, d)
    ensures Linked(r.graph, s, k, d) ==> s in r.graph.entities && d in r.graph.entities
  {
    assert Unsealed(true);
  }

  lemma IdStep(log: seq<Event>, n: nat, g: Graph, id: Id)
    requires n < |log| && Tells(log, n, Outcome(g, true))
    ensures Known(g, log[n], id) <==> Stored(log, n + 1, id)
  {
    TellsAt(log, n, g, id, "", id);
    StoredSnoc(log, n, id);
  }

  lemma AdmittedIff(log: seq<Event>, n: nat, g: Graph)
    requires n < |log| && Tells(log, n, Outcome(g, true))
    ensures Admitted(log, n) <==> (TypeOf(log[n].typ).Some? ==> IdOf(log[n]) != "") && Complete(g, log[n])
  {
    forall id ensures Known(g, log[n], id) <==> Stored(log, n + 1, id) { IdStep(log, n, g, id); }
  }

  lemma EntitiesKnown(g: Graph, e: Event, r: Outcome)
    requires WellFormed(g) && r == Project(g, e) && (TypeOf(e.typ).Some? ==> IdOf(e) != "")
    ensures forall id :: id in r.graph.entities <==> Known(g, e, id)
  {
    EntityIs(g, e);
  }

  lemma EdgeStep(log: seq<Event>, n: nat, g: Graph, r: Outcome, s: Id, k: string, d: Id)
    requires n < |log| && Tells(log, n, Outcome(g, true)) && EdgesFollow(g, log[n], r) && r.ok
    requires forall id :: id in r.graph.entities <==> Known(g, log[n], id)
    ensures Linked(r.graph, s, k, d) <==> DrawnBy(log, n + 1, s, k, d)
  {
    TellsAt(log, n, g, s, k, d);
    FollowsAt(g, log[n], r, s, k, d);
    IdStep(log, n, g, s);
    IdStep(log, n, g, d);
    DrawnSnoc(log, n, s, k, d);
  }

  lemma TellsFrom(log: seq<Event>, n: nat, r: Outcome)
    requires n <= |log| && WellFormed(r.graph) && CleanEdges(r.graph) && (r.ok <==> AllAdmitted(log, n))
    requires r.ok ==> forall id :: id in r.graph.entities <==> Stored(log, n, id)
    requires r.ok ==> forall s, k, d :: Linked(r.graph, s, k, d) <==> DrawnBy(log, n, s, k, d)
    ensures Tells(log, n, r)
  {}

  lemma TellsSound(log: seq<Event>, n: nat, r: Outcome)
    requires n <= |log| && Tells(log, n, r)
    ensures WellFormed(r.graph) && CleanEdges(r.graph) && (r.ok <==> AllAdmitted(log, n))
  {
    assert Unsealed(true);
  }

  lemma FollowsSound(g: Graph, e: Event, r: Outcome)
    requires EdgesFollow(g, e, r)
    ensures WellFormed(r.graph) && CleanEdges(r.graph)
  {
    assert Unsealed(true);
  }

  lemma TellsStep(log: seq<Event>, n: nat, g: Graph, r: Outcome)
    requires n < |log| && Tells(log, n, Outcome(g, true)) && SeparatorFree(log[n]) && r == Project(g, log[n])
    ensures Tells(log, n + 1, r)
  {
    TellsSound(log, n, Outcome(g, true));
    EdgesFollowed(g, log[n]);
    FollowsSound(g, log[n], r);
    AdmittedIff(log, n, g);
    if r.ok {
      EntitiesKnown(g, log[n], r);
      forall id ensures id in r.graph.entities <==> Stored(log, n + 1, id) { IdStep(log, n, g, id); }
      forall s, k, d ensures Linked(r.graph, s, k, d) <==> DrawnBy(log, n + 1, s, k, d) {
        EdgeStep(log, n, g, r, s, k, d);
      }
    }
    TellsFrom(log, n + 1, r);
  }

  lemma {:induction false} LogTells(log: seq<Event>, n: nat)
    requires n <= |log| && AllSeparatorFree(log)
    ensures Tells(log, n, ProjectAll(EMPTY, log[..n]))
  {
    if n == 0 {
      EmptyWellFormed();
    } else {
      LogTells(log, n - 1);
      assert log[..n][..n - 1] == log[..n - 1];
      var r := ProjectAll(EMPTY, log[..n - 1]);
      if r.ok {
        TellsStep(log, n - 1, r.graph, ProjectAll(EMPTY, log[..n]));
      } else {
        StaysStopped(log, n - 1, r);
      }
    }
  }

  lemma StaysStopped(log: seq<Event>, n: nat, r: Outcome)
    requires n < |log| && Tells(log, n, r) && !r.ok
    ensures Tells(log, n + 1, r)
  {
    assert Unsealed(true);
  }

  /**
   * A log goes through exactly when every event has the id it stores under and finds the ends it requires; then the
   * ids in the graph are those its events store, and the edges are those its events ask for with both ends there.
   */
  lemma LogIs(log: seq<Event>)
    requires AllSeparatorFree(log)
    ensures var r := ProjectAll(EMPTY, log);
            && (r.ok <==> AllAdmitted(log, |log|))
            && (r.ok ==>
                  && (forall id :: id in r.graph.entities <==> Stored(log, |log|, id))
                  && (forall s, k, d :: Linked(r.graph, s, k, d) <==> DrawnBy(log, |log|, s, k, d)))
  {
    LogTells(log, |log|);
    assert log[..|log|] == log;
    assert Unsealed(true);
  }

  // ------------------------------------------------------------------ downstream, from the log

  lemma CommandsClean(e: Event)
    requires SeparatorFree(e)
    ensures Replay.CleanCommands(Commands(e))
  {
    CommandsCarry(e);
    forall i | 0 <= i < |Commands(e)| && !Commands(e)[i].Put?
      ensures Clean(Commands(e)[i].src) && Clean(Commands(e)[i].kind)
    {
      var c := Commands(e)[i];
      KindsAreClean(e, c.src, c.kind, c.dst);
    }
  }

  lemma {:induction false} LogClean(log: seq<Event>)
    requires AllSeparatorFree(log)
    ensures Replay.CleanCommands(Replay.AllCommands(log))
  {
    if log != [] {
      LogClean(log[..|log| - 1]);
      CommandsClean(log[|log| - 1]);
    }
  }

  /** A projected graph reads its indexes exactly. */
  lemma LogIndexed(log: seq<Event>)
    requires AllSeparatorFree(log)
    ensures WellFormed(ProjectAll(EMPTY, log).graph) && IndexExact(ProjectAll(EMPTY, log).graph)
  {
    LogClean(log);
    Replay.ProjectionWellFormed(log);
  }

  ghost predicate Joins(g: Graph, s: Id, d: Id) { exists k :: Linked(g, s, k, d) }

  lemma HopOut(g: Graph, s: Id, h: Hop)
    requires WellFormed(g) && IndexExact(g) && h in Outward(g)(s)
    ensures Joins(g, s, h.entity.id)
  {
    NeighborsAreFilteredEdges(g, s, Out, None, h);
    assert Linked(g, s, h.edge.kind, h.entity.id);
  }

  lemma HopTo(g: Graph, s: Id, d: Id) returns (h: Hop)
    requires WellFormed(g) && IndexExact(g) && Joins(g, s, d)
    ensures h in Outward(g)(s) && h.entity.id == d
  {
    var k :| Linked(g, s, k, d);
    h := Hop(g.edges[Key(s, k, d)], g.entities[d]);
    assert OutHop(g, s, None, h);
    NeighborsAreFilteredEdges(g, s, Out, None, h);
  }

  /** `d` is `n` edges away from `s`, along some edges. */
  ghost predicate Reaches(g: Graph, s: Id, n: nat, d: Id) {
    if n == 0 then s == d else exists m :: Reaches(g, s, n - 1, m) && Joins(g, m, d)
  }

  lemma {:induction false} WalkAlong(g: Graph, s: Id, n: nat, d: Id) returns (w: Walk)
    requires WellFormed(g) && IndexExact(g) && Reaches(g, s, n, d)
    ensures WalkTo(Outward(g), s, d, w) && |w| == n
  {
    w := [];
    if n > 0 {
      var m :| Reaches(g, s, n - 1, m) && Joins(g, m, d);
      var u := WalkAlong(g, s, n - 1, m);
      var h := HopTo(g, m, d);
      WalkSnoc(Outward(g), s, u, h);
      w := u + [h];
    }
  }

  lemma {:induction false} ReachedBy(g: Graph, s: Id, w: Walk)
    requires WellFormed(g) && IndexExact(g) && IsWalk(Outward(g), s, w)
    ensures Reaches(g, s, |w|, End(s, w))
  {
    if w != [] {
      var n := |w| - 1;
      WalkPrefix(Outward(g), s, w, n);
      ReachedBy(g, s, w[..n]);
      HopOut(g, End(s, w[..n]), w[n]);
    }
  }

  /** Downstream means another id, at most `maxDepth` edges away. */
  lemma DownstreamIffReached(g: Graph, origin: Id, maxDepth: int, id: Id)
    requires WellFormed(g) && IndexExact(g)
    ensures Downstream(g, origin, maxDepth, id) <==>
              id != origin && exists n: nat :: n <= maxDepth && Reaches(g, origin, n, id)
  {
    if Downstream(g, origin, maxDepth, id) {
      FromDownstream(g, origin, maxDepth, id);
    }
    if n: nat :| id != origin && n <= maxDepth && Reaches(g, origin, n, id) {
      ToDownstream(g, origin, maxDepth, id, n);
    }
  }

  lemma FromDownstream(g: Graph, origin: Id, maxDepth: int, id: Id)
    requires WellFormed(g) && IndexExact(g) && Downstream(g, origin, maxDepth, id)
    ensures id != origin && exists n: nat :: n <= maxDepth && Reaches(g, origin, n, id)
  {
    var d: nat :| IsDistance(Outward(g), origin, id, d) && 1 <= d <= maxDepth;
    var w :| WalkTo(Outward(g), origin, id, w) && |w| == d;
    ReachedBy(g, origin, w);
    HomeIsNear(Outward(g), origin, d);
  }

  /** No id is away from itself. */
  lemma HomeIsNear(adj: Adjacency, s: Id, d: nat)
    ensures IsDistance(adj, s, s, d) ==> d == 0
  {
    var none: Walk := [];
    assert WalkTo(adj, s, s, none);
  }

  lemma ToDownstream(g: Graph, origin: Id, maxDepth: int, id: Id, n: nat)
    requires WellFormed(g) && IndexExact(g) && id != origin && n <= maxDepth && Reaches(g, origin, n, id)
    ensures Downstream(g, origin, maxDepth, id)
  {
    var w := WalkAlong(g, origin, n, id);
    var u := ShortestExists(Outward(g), origin, id, w);
    assert u != [];
  }

  // ------------------------------------------------------------------ the lineage

  /** An event of one of the types names this id, and the other id as the given member. */
  ghost predicate Told(log: seq<Event>, types: set<EventType>, id: Id, member: string, other: Id) {
    exists i :: 0 <= i < |log| && log[i].typ in types && IdOf(log[i]) == id && Names(log[i], member, other)
  }

  lemma ToldJoins(log: seq<Event>, types: set<EventType>, id: Id, member: string, other: Id, k: string)
    requires AllSeparatorFree(log) && ProjectAll(EMPTY, log).ok && Told(log, types, id, member, other)
    requires forall e: Event :: e.typ in types && IdOf(e) == id && Names(e, member, other) ==>
               Asks(e, other, k, id) && !Optional(e.typ, k)
    ensures Joins(ProjectAll(EMPTY, log).graph, other, id)
  {
    LogIs(log);
    var i :| 0 <= i < |log| && log[i].typ in types && IdOf(log[i]) == id && Names(log[i], member, other);
    assert Admitted(log, i) && Asks(log[i], other, k, id);
    assert Draws(log, i, other, k, id);
    assert Linked(ProjectAll(EMPTY, log).graph, other, k, id);
  }

  lemma IdeaJoins(log: seq<Event>, idea: Id, gen: Id)
    requires AllSeparatorFree(log) && ProjectAll(EMPTY, log).ok
    requires Told(log, {IdeaCreated, IdeaSeeded}, idea, "generator_id", gen)
    ensures Joins(ProjectAll(EMPTY, log).graph, gen, idea)
  {
    ToldJoins(log, {IdeaCreated, IdeaSeeded}, idea, "generator_id", gen, "GENERATED");
  }

  lemma BuildJoins(log: seq<Event>, build: Id, idea: Id)
    requires AllSeparatorFree(log) && ProjectAll(EMPTY, log).ok
    requires Told(log, {BuildStarted, BuildCompleted}, build, "idea_id", idea)
    ensures Joins(ProjectAll(EMPTY, log).graph, idea, build)
  {
    ToldJoins(log, {BuildStarted, BuildCompleted}, build, "idea_id", idea, "BUILT_BY");
  }

  lemma ProductJoins(log: seq<Event>, product: Id, build: Id)
    requires AllSeparatorFree(log) && ProjectAll(EMPTY, log).ok
    requires Told(log, {ProductGraduated}, product, "build_run_id", build)
    ensures Joins(ProjectAll(EMPTY, log).graph, build, product)
  {
    ToldJoins(log, {ProductGraduated}, product, "build_run_id", build, "PRODUCED");
  }

  lemma SiteJoins(log: seq<Event>, site: Id, product: Id)
    requires AllSeparatorFree(log) && ProjectAll(EMPTY, log).ok
    requires Told(log, {SiteRegistered}, site, "product_id", product)
    ensures Joins(ProjectAll(EMPTY, log).graph, product, site)
  {
    ToldJoins(log, {SiteRegistered}, site, "product_id", product, "EXPOSES");
  }

  lemma ObservationJoins(log: seq<Event>, obs: Id, site: Id)
    requires AllSeparatorFree(log) && ProjectAll(EMPTY, log).ok
    requires Told(log, {ObservationRecorded}, obs, "subject_id", site)
    ensures Joins(ProjectAll(EMPTY, log).graph, site, obs)
  {
    ToldJoins(log, {ObservationRecorded}, obs, "subject_id", site, "OBSERVED_BY");
  }

  lemma OneFurther(g: Graph, s: Id, n: nat, m: Id, d: Id)
    requires Reaches(g, s, n, m) && Joins(g, m, d)
    ensures Reaches(g, s, n + 1, d)
  {}

  lemma FiveFurther(g: Graph, a: Id, b: Id, c: Id, d: Id, e: Id, f: Id)
    requires Joins(g, a, b) && Joins(g, b, c) && Joins(g, c, d) && Joins(g, d, e) && Joins(g, e, f)
    ensures Reaches(g, a, 5, f)
  {
    OneFurther(g, a, 0, a, b);
    OneFurther(g, a, 1, b, c);
    OneFurther(g, a, 2, c, d);
    OneFurther(g, a, 3, d, e);
    OneFurther(g, a, 4, e, f);
  }

  /**
   * Idea from the generator, build of the idea, product of the build, site of the product, observation of the site:
   * once such a log has gone through, whatever else is on it and in whatever order, the observation is downstream of
   * the generator.
   */
  lemma ObservationReachesGenerator(log: seq<Event>, gen: Id, idea: Id, build: Id, product: Id, site: Id, obs: Id,
                                    maxDepth: int)
    requires AllSeparatorFree(log) && ProjectAll(EMPTY, log).ok && maxDepth >= 5 && obs != gen
    requires Told(log, {IdeaCreated, IdeaSeeded}, idea, "generator_id", gen)
    requires Told(log, {BuildStarted, BuildCompleted}, build, "idea_id", idea)
    requires Told(log, {ProductGraduated}, product, "build_run_id", build)
    requires Told(log, {SiteRegistered}, site, "product_id", product)
    requires Told(log, {ObservationRecorded}, obs, "subject_id", site)
    ensures var g := ProjectAll(EMPTY, log).graph; Navigable(g) && Downstream(g, gen, maxDepth, obs)
  {
    var g := ProjectAll(EMPTY, log).graph;
    LogIndexed(log);
    IdeaJoins(log, idea, gen);
    BuildJoins(log, build, idea);
    ProductJoins(log, product, build);
    SiteJoins(log, site, product);
    ObservationJoins(log, obs, site);
    FiveFurther(g, gen, idea, build, product, site, obs);
    ToDownstream(g, gen, maxDepth, obs, 5);
  }
}
