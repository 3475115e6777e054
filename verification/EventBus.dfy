/**
 * The event bus: append, project, then run handlers, which may emit in turn.  The live graph is at
 * every moment the fold of the events that were emitted; a rebuild folds what the medium kept of them.
 */
module EventBus {
  import opened Values
  import opened GraphModel
  import opened GraphStore
  import opened Projector
  import opened Persistence

  /** What the handlers of one emit do: nested emits, whose failure they may swallow, or a throw of their own. */
  datatype Reaction = Emits(script: Script, swallow: bool) | Throws

  datatype Script = Script(event: Event, reactions: seq<Reaction>)

  /** The first event whose projection threw, and the live graph at that moment. */
  datatype Failure = Failure(index: nat, graph: Graph)

  /** The graph after projecting events one by one, each as far as it gets. */
  function Lived(g: Graph, events: seq<Event>): Graph { Folded(Projecting(), g, events) }

  function Projecting(): (Graph, Event) -> Graph { (g: Graph, e: Event) => Project(g, e).graph }

  function Folded(step: (Graph, Event) -> Graph, g: Graph, events: seq<Event>): Graph {
    if events == [] then g else step(Folded(step, g, events[..|events| - 1]), events[|events| - 1])
  }

  lemma {:induction false} FoldedConcat(step: (Graph, Event) -> Graph, g: Graph, a: seq<Event>, b: seq<Event>)
    ensures Folded(step, g, a + b) == Folded(step, Folded(step, g, a), b)
  {
    if b == [] {
      assert a + b == a;
    } else {
      var n := |b| - 1;
      FoldedConcat(step, g, a, b[..n]);
      assert (a + b)[..|a + b| - 1] == a + b[..n];
    }
  }

  lemma LivedConcat(g: Graph, a: seq<Event>, b: seq<Event>)
    ensures Lived(g, a + b) == Lived(Lived(g, a), b)
  {
    FoldedConcat(Projecting(), g, a, b);
  }

  lemma LivedSnoc(g: Graph, events: seq<Event>, e: Event)
    ensures Lived(g, events + [e]) == Project(Lived(g, events), e).graph
    ensures ProjectAll(g, events).ok ==> ProjectAll(g, events + [e]) == Project(ProjectAll(g, events).graph, e)
  {
    assert (events + [e])[..|events|] == events;
  }

  /** Which event threw first, and what the graph was then, is a fact about the events. */
  ghost predicate Explains(events: seq<Event>, failure: Option<Failure>) {
    match failure
    case None => ProjectAll(EMPTY, events) == Outcome(Lived(EMPTY, events), true)
    case Some(f) =>
      && f.index < |events|
      && ProjectAll(EMPTY, events[..f.index]).ok
      && ProjectAll(EMPTY, events[..f.index + 1]) == Outcome(f.graph, false)
  }

  /** One more event, projected or thrown. */
  lemma ExplainsSnoc(events: seq<Event>, failure: Option<Failure>, e: Event)
    requires Explains(events, failure)
    ensures var r := Project(Lived(EMPTY, events), e);
            Explains(events + [e], if failure.Some? || r.ok then failure else Some(Failure(|events|, r.graph)))
  {
    if failure.Some? { PrefixesStay(events, e, failure.value.index); } else { ExplainsFirst(events, e); }
  }

  lemma ExplainsFirst(events: seq<Event>, e: Event)
    requires Explains(events, None)
    ensures var r := Project(Lived(EMPTY, events), e);
            Explains(events + [e], if r.ok then None else Some(Failure(|events|, r.graph)))
  {
    LivedSnoc(EMPTY, events, e);
    assert (events + [e])[..|events|] == events && (events + [e])[..|events| + 1] == events + [e];
  }

  lemma PrefixesStay(events: seq<Event>, e: Event, i: nat)
    requires i < |events|
    ensures (events + [e])[..i] == events[..i] && (events + [e])[..i + 1] == events[..i + 1]
  {}

  lemma WrittenSnoc(m: Medium, events: seq<Event>, e: Event)
    ensures WrittenLog(m, events + [e]) == WrittenLog(m, events) + [Written(m, e)]
  {}

  /** The medium loses nothing that the projector reads: it is memory, or every event lasts. */
  ghost predicate KeepsAll(m: Medium, events: seq<Event>) { m.InMemory? || forall e :: e in events ==> Lasting(e) }

  lemma RebuildExplained(m: Medium, events: seq<Event>, failure: Option<Failure>)
    requires KeepsAll(m, events) && Explains(events, failure)
    ensures ProjectAll(EMPTY, WrittenLog(m, events))
         == match failure case None => Outcome(Lived(EMPTY, events), true) case Some(f) => Outcome(f.graph, false)
  {
    LastingLogProjects(EMPTY, m, events);
    if failure.Some? { ProjectStops(EMPTY, events, failure.value.index + 1); }
  }

  class EventBus {
    const graph: InMemoryGraphStore
    const medium: Medium
    var log: seq<Event>
    ghost var projected: seq<Event>
    ghost var failure: Option<Failure>

    /** The log is what the medium keeps of the emitted events, and they explain the live graph. */
    ghost predicate Valid()
      reads this, graph
    {
      && graph.Valid() && graph.View() == Lived(EMPTY, projected)
      && log == WrittenLog(medium, projected) && Explains(projected, failure)
    }

    constructor (medium: Medium)
      ensures Valid() && fresh(graph) && this.medium == medium
      ensures log == [] && projected == [] && failure.None? && graph.View() == EMPTY
    {
      this.medium := medium;
      graph := new InMemoryGraphStore();
      log, projected := [], [];
      failure := None;
    }

    /** Append an event and fold it into the graph. */
    method AppendAndProject(e: Event) returns (ok: bool)
      requires Valid()
      modifies this, graph
      ensures Valid() && projected == old(projected) + [e] && log == old(log) + [Written(medium, e)]
      ensures Outcome(graph.View(), ok) == Project(old(graph.View()), e)
      ensures failure == if old(failure).Some? || ok then old(failure) else Some(Failure(|old(log)|, graph.View()))
    {
      ExplainsSnoc(projected, failure, e);
      LivedSnoc(EMPTY, projected, e);
      WrittenSnoc(medium, projected, e);
      log := log + [Written(medium, e)];
      ok := ProjectEvent(graph, e);
      if failure.None? && !ok { failure := Some(Failure(|projected|, graph.View())); }
      projected := projected + [e];
    }

    /** `emit`: a throw in the projection or in a handler ends it, but never rolls anything back. */
    method Emit(s: Script) returns (ok: bool)
      requires Valid()
      modifies this, graph
      ensures Valid()
      ensures old(projected) + [s.event] <= projected
      ensures old(failure).Some? ==> failure == old(failure)
      ensures ok ==> Project(old(graph.View()), s.event).ok
      decreases s
    {
      ok := AppendAndProject(s.event);
      if !ok { return; }
      for i := 0 to |s.reactions|
        invariant Valid()
        invariant old(projected) + [s.event] <= projected
        invariant old(failure).Some? ==> failure == old(failure)
      {
        match s.reactions[i] {
          case Throws => return false;
          case Emits(nested, swallow) =>
            var r := Emit(nested);
            if !r && !swallow { return false; }
        }
      }
    }

    /** A canonical envelope written to the shared log by the ingestor is not projected here. */
    method AppendEnvelope(e: Event)
      requires Valid() && e.typ.NoType?
      modifies this
      ensures Valid() && projected == old(projected) + [e] && failure == old(failure)
    {
      UntypedProjectsToNothing(Lived(EMPTY, projected), e);
      ExplainsSnoc(projected, failure, e);
      LivedSnoc(EMPTY, projected, e);
      WrittenSnoc(medium, projected, e);
      log := log + [Written(medium, e)];
      projected := projected + [e];
    }

    /**
     * Rebuilding another store from the log.  If the medium lost nothing the projector reads, then: if no
     * projection ever threw it ends with the live graph, indexes included; otherwise it stops with the graph
     * the live run had at its first throw.
     */
    method RebuildInto(store: InMemoryGraphStore) returns (ok: bool)
      requires Valid() && store != graph
      modifies store
      ensures Valid() && store.Valid()
      ensures Outcome(store.View(), ok) == ProjectAll(EMPTY, log)
      ensures KeepsAll(medium, projected) ==>
                (ok <==> failure.None?)
                && store.View() == match failure case None => graph.View() case Some(f) => f.graph
    {
      ok := RebuildProjection(store, log);
      if KeepsAll(medium, projected) { RebuildExplained(medium, projected, failure); }
    }
  }

  lemma UntypedProjectsToNothing(g: Graph, e: Event)
    requires e.typ.NoType?
    ensures Project(g, e) == Outcome(g, true)
  {
    assert Commands(e) == [];
  }
}
