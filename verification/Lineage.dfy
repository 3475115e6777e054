/**
 * What projecting an event does to the graph, told kind by kind in terms of entities and edges, and the lineage
 * that follows: from a generator down to the observations of its products' sites.
 */
module Lineage {
  import opened Values
  import opened GraphModel
  import opened Projector
  import opened Paths
  import opened Attribution
  import Replay

  // ------------------------------------------------------------------ what an event says

  /** The type of the entity an event stores; None for events that only link, or do nothing. */
  function TypeOf(t: EventType): Option<string> {
    match t
    case IdeaGeneratorRegistered => Some("IdeaGenerator")
    case IdeaCreated => Some("Idea")
    case IdeaSeeded => Some("Idea")
    case ResearchRecorded => Some("ResearchReport")
    case CapabilityDefined => Some("Capability")
    case BuildStarted => Some("BuildRun")
    case BuildCompleted => Some("BuildRun")
    case ProductGraduated => Some("Product")
    case SiteRegistered => Some("Site")
    case DeploymentRecorded => Some("Deployment")
    case StandardRegistered => Some("Standard")
    case StandardVersionRegistered => Some("StandardVersion")
    case SiteStandardDesired => None
    case SensorRegistered => Some("Sensor")
    case ObservationRecorded => Some("Observation")
    case ExperimentCreated => Some("Experiment")
    case ExperimentArmCreated => Some("ExperimentArm")
    case ExperimentArmAssigned => None
    case FailureRecorded => Some("Failure")
    case TaskCreated => Some("Task")
    case ProcessRegistered => Some("Process")
    case ProcessRunStarted => Some("ProcessRun")
    case ProcessRunCompleted => Some("ProcessRun")
    case OtherType(_) => None
    case NoType => None
  }

  /** The payload member, a string; anything else reads as "". */
  function StringAt(e: Event, member: string): string {
    if member in e.payload && e.payload[member].Str? then e.payload[member].s else ""
  }

  function IdOf(e: Event): Id { StringAt(e, "id") }

  /** The member names an id, and it is this one. */
  predicate Names(e: Event, member: string, id: Id) {
    id != "" && member in e.payload && e.payload[member] == Str(id)
  }

  /** The member is a list, and this id is on it; an item that is no string reads as "". */
  predicate Lists(e: Event, member: string, id: Id) {
    && member in e.payload && e.payload[member].List?
    && exists v :: v in e.payload[member].items && (v == Str(id) || (id == "" && !v.Str?))
  }

  /** The edges an event asks for. */
  ghost predicate Asks(e: Event, s: Id, k: string, d: Id) {
    match e.typ
    case IdeaCreated => k == "GENERATED" && Names(e, "generator_id", s) && d == IdOf(e)
    case IdeaSeeded => k == "GENERATED" && Names(e, "generator_id", s) && d == IdOf(e)
    case ResearchRecorded =>
      (k == "RESEARCHED_BY" && Names(e, "idea_id", s) && d == IdOf(e))
      || (k == "SUPPORTS" && s == IdOf(e) && Names(e, "supports_standard_version_id", d))
    case CapabilityDefined => k == "PROPOSES" && Names(e, "idea_id", s) && d == IdOf(e)
    case BuildStarted => k == "BUILT_BY" && Names(e, "idea_id", s) && d == IdOf(e)
    case BuildCompleted => k == "BUILT_BY" && Names(e, "idea_id", s) && d == IdOf(e)
    case ProductGraduated =>
      (k == "PRODUCED" && Names(e, "build_run_id", s) && d == IdOf(e))
      || (k == "IMPLEMENTS" && s == IdOf(e) && Lists(e, "capability_ids", d))
    case SiteRegistered => k == "EXPOSES" && Names(e, "product_id", s) && d == IdOf(e)
    case DeploymentRecorded => k == "DEPLOYED_AS" && Names(e, "site_id", s) && d == IdOf(e)
    case StandardVersionRegistered =>
      (k == "SUPERSEDES" && s == IdOf(e) && Names(e, "previous_id", d))
      || (k == "EXPOSES" && Names(e, "standard_id", s) && d == IdOf(e))
    case SiteStandardDesired =>
      k == "CONFORMS_TO" && s == StringAt(e, "site_id") && d == StringAt(e, "standard_version_id")
    case ObservationRecorded =>
      (k == "OBSERVED" && Names(e, "sensor_id", s) && d == IdOf(e))
      || (k == "OBSERVED_BY" && Names(e, "subject_id", s) && d == IdOf(e))
      || (k == "MEASURES" && Names(e, "experiment_id", s) && d == IdOf(e))
    case ExperimentCreated => k == "TESTS" && s == IdOf(e) && Names(e, "standard_version_id", d)
    case ExperimentArmCreated => k == "HAS_ARM" && Names(e, "experiment_id", s) && d == IdOf(e)
    case ExperimentArmAssigned => k == "ASSIGNED_TO" && s == StringAt(e, "arm_id") && d == StringAt(e, "site_id")
    case FailureRecorded => k == "FAILED_WITH" && Names(e, "subject_id", s) && d == IdOf(e)
    case TaskCreated => k == "TRIGGERED" && Names(e, "subject_id", s) && d == IdOf(e)
    case ProcessRunStarted => AsksRun(e, s, k, d)
    case ProcessRunCompleted => AsksRun(e, s, k, d)
    case _ => false
  }

  ghost predicate AsksRun(e: Event, s: Id, k: string, d: Id) {
    || (k == "EXECUTED" && Names(e, "process_id", s) && d == IdOf(e))
    || (k == "INPUT_TO" && Lists(e, "input_ids", s) && d == IdOf(e))
    || (k == "OUTPUT_OF" && s == IdOf(e) && Lists(e, "output_ids", d))
  }

  /** Edges that are left out, not an error, when their other end is not stored. */
  predicate Optional(t: EventType, k: string) { t.StandardVersionRegistered? || k == "INPUT_TO" || k == "OUTPUT_OF" }

  predicate Missing(v: Value) { v.Undefined? || v.Null? }

  function OneOf(v: Value, otherwise: Value): Value { if Missing(v) then otherwise else v }

  /** What an edge says beside its ends. */
  function Marks(e: Event): map<string, Value> {
    match e.typ
    case SiteStandardDesired =>
      map["desired" := Bool(true), "at" := Str(e.at), "source" := OneOf(Get(e.payload, "source"), Str("registry"))]
    case ExperimentArmAssigned => map["at" := Str(e.at), "bucket" := Get(e.payload, "bucket")]
    case _ => map["at" := Str(e.at)]
  }

  // ------------------------------------------------------------------ the commands carry it out

  /** The links among the commands are exactly the edges asked for. */
  ghost predicate Carries(e: Event, cs: seq<Command>) {
    && (forall c :: c in cs && !c.Put? ==>
          && Asks(e, c.src, c.kind, c.dst) && c.props == Marks(e) && (c.ConnectIf? <==> Optional(e.typ, c.kind))
          && (c.ConnectIf? ==> (c.guard == c.src && c.dst == IdOf(e)) || (c.guard == c.dst && c.src == IdOf(e))))
    && (forall s, k, d :: Asks(e, s, k, d) ==> Linking(cs, s, k, d))
  }

  ghost predicate Linking(cs: seq<Command>, s: Id, k: string, d: Id) {
    exists c :: c in cs && !c.Put? && c.src == s && c.kind == k && c.dst == d
  }

  lemma LinkingAt(cs: seq<Command>, i: nat)
    requires i < |cs| && !cs[i].Put?
    ensures Linking(cs, cs[i].src, cs[i].kind, cs[i].dst)
  {
    assert cs[i] in cs;
  }

  /** One node, and at most one link of it. */
  lemma OneLinkCarries(e: Event, cs: seq<Command>)
    requires cs != [] && cs[0].Put? && |cs| <= 2
    requires forall s, k, d :: Asks(e, s, k, d) <==>
               |cs| == 2 && !cs[1].Put? && s == cs[1].src && k == cs[1].kind && d == cs[1].dst
    requires |cs| == 2 ==> cs[1].Connect? && cs[1].props == Marks(e) && !Optional(e.typ, cs[1].kind)
    ensures Carries(e, cs)
  {
    if |cs| == 2 { LinkingAt(cs, 1); }
    assert forall c :: c in cs ==> c == cs[0] || (|cs| == 2 && c == cs[1]);
  }

  predicate Factory(t: EventType) {
    t.IdeaCreated? || t.IdeaSeeded? || t.CapabilityDefined? || t.BuildStarted? || t.BuildCompleted? || t.SiteRegistered?
  }

  lemma FactoryCarries(e: Event)
    requires Factory(e.typ)
    ensures Carries(e, Commands(e))
  {
    OneLinkCarries(e, Commands(e));
  }

  predicate Trial(t: EventType) { t.ExperimentCreated? || t.ExperimentArmCreated? }

  lemma TrialCarries(e: Event)
    requires Trial(e.typ)
    ensures Carries(e, Commands(e))
  {
    OneLinkCarries(e, Commands(e));
  }

  predicate Incident(t: EventType) { t.DeploymentRecorded? || t.FailureRecorded? || t.TaskCreated? }

  lemma IncidentCarries(e: Event)
    requires Incident(e.typ)
    ensures Carries(e, Commands(e))
  {
    OneLinkCarries(e, Commands(e));
  }

  lemma NoLinkCarries(e: Event)
    requires e.typ.IdeaGeneratorRegistered? || e.typ.StandardRegistered? || e.typ.SensorRegistered? || e.typ.ProcessRegistered?
             || e.typ.OtherType? || e.typ.NoType?
    ensures Carries(e, Commands(e))
  {}

  lemma BareLinkCarries(e: Event)
    requires e.typ.SiteStandardDesired? || e.typ.ExperimentArmAssigned?
    ensures Carries(e, Commands(e))
  {
    LinkingAt(Commands(e), 0);
  }

  lemma ConcatLinking(a: seq<Command>, b: seq<Command>, s: Id, k: string, d: Id)
    ensures Linking(a + b, s, k, d) <==> Linking(a, s, k, d) || Linking(b, s, k, d)
  {
    assert forall c :: c in a + b <==> c in a || c in b;
  }

  lemma LinkFromIs(src: Id, kind: string, dst: Id, at: string)
    ensures forall s, k, d :: Linking(LinkFrom(src, kind, dst, at), s, k, d) <==> src != "" && s == src && k == kind && d == dst
    ensures forall c :: c in LinkFrom(src, kind, dst, at) ==> c == Connect(src, kind, dst, map["at" := Str(at)])
  {
    if src != "" { LinkingAt(LinkFrom(src, kind, dst, at), 0); }
  }

  lemma LinkToIs(src: Id, kind: string, dst: Id, at: string)
    ensures forall s, k, d :: Linking(LinkTo(src, kind, dst, at), s, k, d) <==> dst != "" && s == src && k == kind && d == dst
    ensures forall c :: c in LinkTo(src, kind, dst, at) ==> c == Connect(src, kind, dst, map["at" := Str(at)])
  {
    if dst != "" { LinkingAt(LinkTo(src, kind, dst, at), 0); }
  }

  lemma ThreeParts(node: Command, a: seq<Command>, b: seq<Command>, c: seq<Command>)
    requires node.Put?
    ensures forall s, k, d :: Linking([node] + a + b + c, s, k, d) <==>
              Linking(a, s, k, d) || Linking(b, s, k, d) || Linking(c, s, k, d)
    ensures forall x :: x in [node] + a + b + c <==> x == node || x in a || x in b || x in c
  {
    forall s, k, d
      ensures Linking([node] + a + b + c, s, k, d) <==> Linking(a, s, k, d) || Linking(b, s, k, d) || Linking(c, s, k, d)
    {
      ConcatLinking([node] + a + b, c, s, k, d);
      ConcatLinking([node] + a, b, s, k, d);
      ConcatLinking([node], a, s, k, d);
    }
  }

  lemma ResearchCarries(e: Event)
    requires e.typ.ResearchRecorded?
    ensures Carries(e, Commands(e))
  {
    var p, id := e.payload, IdOf(e);
    var node := Node(p, "ResearchReport", Get(p, "title"), Stamped(p, "recorded_at", e.at));
    var a := LinkFrom(Text(p, "idea_id"), "RESEARCHED_BY", id, e.at);
    var b := LinkTo(id, "SUPPORTS", Text(p, "supports_standard_version_id"), e.at);
    ThreeParts(node, a, b, []);
    LinkFromIs(Text(p, "idea_id"), "RESEARCHED_BY", id, e.at);
    LinkToIs(id, "SUPPORTS", Text(p, "supports_standard_version_id"), e.at);
    assert Commands(e) == [node] + a + b + [];
  }

  lemma ObservationCarries(e: Event)
    requires e.typ.ObservationRecorded?
    ensures Carries(e, Commands(e))
  {
    var p, id := e.payload, IdOf(e);
    var node := Node(p, "Observation", Get(p, "metric"), Stamped(p, "ingested_at", e.at));
    var a := LinkFrom(Text(p, "sensor_id"), "OBSERVED", id, e.at);
    var b := LinkFrom(Text(p, "subject_id"), "OBSERVED_BY", id, e.at);
    var c := LinkFrom(Text(p, "experiment_id"), "MEASURES", id, e.at);
    ThreeParts(node, a, b, c);
    LinkFromIs(Text(p, "sensor_id"), "OBSERVED", id, e.at);
    LinkFromIs(Text(p, "subject_id"), "OBSERVED_BY", id, e.at);
    LinkFromIs(Text(p, "experiment_id"), "MEASURES", id, e.at);
    assert Commands(e) == [node] + a + b + c;
  }

  lemma OnTheList(e: Event, member: string, id: Id)
    ensures Lists(e, member, id) <==> id in IdList(e.payload, member)
  {
    var ids := IdList(e.payload, member);
    if Lists(e, member, id) {
      var items := e.payload[member].items;
      var i :| 0 <= i < |items| && (items[i] == Str(id) || (id == "" && !items[i].Str?));
      assert ids[i] == id;
    }
    if id in ids {
      var i :| 0 <= i < |ids| && ids[i] == id;
      assert e.payload[member].items[i] in e.payload[member].items;
    }
  }

  lemma LinksToAre(e: Event, id: Id, kind: string, member: string)
    ensures var cs := LinksTo(id, kind, IdList(e.payload, member), e.at);
            && (forall s, k, d :: Linking(cs, s, k, d) <==> s == id && k == kind && Lists(e, member, d))
            && (forall c :: c in cs ==> c.Connect? && c.src == id && c.kind == kind && c.props == map["at" := Str(e.at)])
  {
    var ids := IdList(e.payload, member);
    var cs := LinksTo(id, kind, ids, e.at);
    forall s, k, d ensures Linking(cs, s, k, d) <==> s == id && k == kind && Lists(e, member, d) {
      OnTheList(e, member, d);
      if s == id && k == kind && d in ids {
        var i :| 0 <= i < |ids| && ids[i] == d;
        LinkingAt(cs, i);
      }
    }
  }

  lemma InputsAre(e: Event)
    ensures var cs := Inputs(IdOf(e), IdList(e.payload, "input_ids"), e.at);
            && (forall s, k, d :: Linking(cs, s, k, d) <==> k == "INPUT_TO" && d == IdOf(e) && Lists(e, "input_ids", s))
            && (forall c :: c in cs ==>
                  c.ConnectIf? && c.guard == c.src && c.dst == IdOf(e) && c.kind == "INPUT_TO"
                  && c.props == map["at" := Str(e.at)])
  {
    var ids := IdList(e.payload, "input_ids");
    var cs := Inputs(IdOf(e), ids, e.at);
    forall s, k, d
      ensures Linking(cs, s, k, d) <==> k == "INPUT_TO" && d == IdOf(e) && Lists(e, "input_ids", s)
    {
      OnTheList(e, "input_ids", s);
      if k == "INPUT_TO" && d == IdOf(e) && s in ids {
        var i :| 0 <= i < |ids| && ids[i] == s;
        LinkingAt(cs, i);
      }
    }
  }

  lemma OutputsAre(e: Event)
    ensures var cs := Outputs(IdOf(e), IdList(e.payload, "output_ids"), e.at);
            && (forall s, k, d :: Linking(cs, s, k, d) <==> k == "OUTPUT_OF" && s == IdOf(e) && Lists(e, "output_ids", d))
            && (forall c :: c in cs ==>
                  c.ConnectIf? && c.guard == c.dst && c.src == IdOf(e) && c.kind == "OUTPUT_OF"
                  && c.props == map["at" := Str(e.at)])
  {
    var ids := IdList(e.payload, "output_ids");
    var cs := Outputs(IdOf(e), ids, e.at);
    forall s, k, d
      ensures Linking(cs, s, k, d) <==> k == "OUTPUT_OF" && s == IdOf(e) && Lists(e, "output_ids", d)
    {
      OnTheList(e, "output_ids", d);
      if k == "OUTPUT_OF" && s == IdOf(e) && d in ids {
        var i :| 0 <= i < |ids| && ids[i] == d;
        LinkingAt(cs, i);
      }
    }
  }

  lemma ProductCarries(e: Event)
    requires e.typ.ProductGraduated?
    ensures Carries(e, Commands(e))
  {
    var p, id := e.payload, IdOf(e);
    var node := Node(p, "Product", Get(p, "name"), Stamped(p, "graduated_at", e.at));
    var a := LinkFrom(Text(p, "build_run_id"), "PRODUCED", id, e.at);
    var b := LinksTo(id, "IMPLEMENTS", IdList(p, "capability_ids"), e.at);
    ThreeParts(node, a, b, []);
    LinkFromIs(Text(p, "build_run_id"), "PRODUCED", id, e.at);
    LinksToAre(e, id, "IMPLEMENTS", "capability_ids");
    assert Commands(e) == [node] + a + b + [];
  }

  lemma VersionCarries(e: Event)
    requires e.typ.StandardVersionRegistered?
    ensures Carries(e, Commands(e))
  {
    var p, id := e.payload, IdOf(e);
    var node := Commands(e)[0];
    var a := if Text(p, "previous_id") == "" then []
             else [Guarded(Text(p, "previous_id"), id, "SUPERSEDES", Text(p, "previous_id"), e.at)];
    var b := if Text(p, "standard_id") == "" then []
             else [Guarded(Text(p, "standard_id"), Text(p, "standard_id"), "EXPOSES", id, e.at)];
    ThreeParts(node, a, b, []);
    if a != [] { LinkingAt(a, 0); }
    if b != [] { LinkingAt(b, 0); }
    assert Commands(e) == [node] + a + b + [];
  }

  /** What the three groups of a run's links are, each for itself. */
  ghost predicate RunParts(e: Event, a: seq<Command>, b: seq<Command>, c: seq<Command>) {
    && (forall s, k, d :: Linking(a, s, k, d) || Linking(b, s, k, d) || Linking(c, s, k, d) <==> AsksRun(e, s, k, d))
    && (forall x :: x in a ==> x.Connect? && x.kind == "EXECUTED" && x.props == map["at" := Str(e.at)])
    && (forall x :: x in b ==>
          x.ConnectIf? && x.guard == x.src && x.dst == IdOf(e) && x.kind == "INPUT_TO" && x.props == map["at" := Str(e.at)])
    && (forall x :: x in c ==>
          x.ConnectIf? && x.guard == x.dst && x.src == IdOf(e) && x.kind == "OUTPUT_OF" && x.props == map["at" := Str(e.at)])
  }

  lemma RunPartsCarry(e: Event, node: Command, a: seq<Command>, b: seq<Command>, c: seq<Command>)
    requires (e.typ.ProcessRunStarted? || e.typ.ProcessRunCompleted?) && node.Put? && RunParts(e, a, b, c)
    ensures Carries(e, [node] + a + b + c)
  {
    var cs := [node] + a + b + c;
    ThreeParts(node, a, b, c);
    forall x | x in cs && !x.Put? ensures AsksRun(e, x.src, x.kind, x.dst) {
      var i :| 0 <= i < |cs| && cs[i] == x;
      LinkingAt(cs, i);
    }
  }

  lemma RunCarries(e: Event)
    requires e.typ.ProcessRunStarted? || e.typ.ProcessRunCompleted?
    ensures Carries(e, Commands(e))
  {
    var p, id := e.payload, IdOf(e);
    var node := Commands(e)[0];
    var a := LinkFrom(Text(p, "process_id"), "EXECUTED", id, e.at);
    var b, c := Inputs(id, IdList(p, "input_ids"), e.at), Outputs(id, IdList(p, "output_ids"), e.at);
    LinkFromIs(Text(p, "process_id"), "EXECUTED", id, e.at);
    InputsAre(e);
    OutputsAre(e);
    RunPartsCarry(e, node, a, b, c);
    assert Commands(e) == [node] + a + b + c;
  }

  lemma CommandsCarry(e: Event)
    ensures Carries(e, Commands(e))
  {
    if Factory(e.typ) {
      FactoryCarries(e);
    } else if Trial(e.typ) {
      TrialCarries(e);
    } else if Incident(e.typ) {
      IncidentCarries(e);
    } else {
      match e.typ
      case ResearchRecorded => ResearchCarries(e);
      case ObservationRecorded => ObservationCarries(e);
      case ProductGraduated => ProductCarries(e);
      case StandardVersionRegistered => VersionCarries(e);
      case ProcessRunStarted => RunCarries(e);
      case ProcessRunCompleted => RunCarries(e);
      case SiteStandardDesired => BareLinkCarries(e);
      case ExperimentArmAssigned => BareLinkCarries(e);
      case _ => NoLinkCarries(e);
    }
  }

  // ------------------------------------------------------------------ links, executed

  ghost predicate Linked(g: Graph, s: Id, k: string, d: Id) {
    var key := Key(s, k, d);
    key in g.edges && g.edges[key].src == s && g.edges[key].kind == k && g.edges[key].dst == d
  }

  lemma LinkLinked(g: Graph, src: Id, kind: string, dst: Id, props: map<string, Value>)
    requires WellFormed(g) && CleanEdges(g) && Clean(src) && Clean(kind) && Linkable(g, src, dst)
    ensures var h := Link(g, src, kind, dst, props);
            && WellFormed(h) && CleanEdges(h) && h.entities == g.entities && h.edges[Key(src, kind, dst)].props == props
            && (forall s, k, d :: Linked(h, s, k, d) <==> Linked(g, s, k, d) || (s == src && k == kind && d == dst))
            && (forall s, k, d :: Linked(g, s, k, d) && !(s == src && k == kind && d == dst) ==>
                  h.edges[Key(s, k, d)] == g.edges[Key(s, k, d)])
  {
    LinkWellFormed(g, src, kind, dst, props);
    forall s, k, d | Linked(g, s, k, d) && Key(s, k, d) == Key(src, kind, dst) ensures s == src && k == kind && d == dst {
      KeyInjective(src, kind, dst, s, k, d);
    }
  }

  /** The command can run: its ends are stored, or it is one that may be left out. */
  predicate Runs(g: Graph, c: Command)
    requires !c.Put?
  {
    Linkable(g, c.src, c.dst) || (c.ConnectIf? && c.guard !in g.entities)
  }

  /** Some command draws the edge. */
  ghost predicate Drawn(g: Graph, cs: seq<Command>, s: Id, k: string, d: Id) {
    exists c :: c in cs && !c.Put? && c.src == s && c.kind == k && c.dst == d && (c.Connect? || c.guard in g.entities)
  }

  /** `h` is `g` with the drawn edges. */
  ghost predicate Linkings(g: Graph, cs: seq<Command>, marks: map<string, Value>, h: Graph) {
    && WellFormed(h) && CleanEdges(h) && h.entities == g.entities
    && (forall s, k, d :: Linked(h, s, k, d) <==> Linked(g, s, k, d) || Drawn(g, cs, s, k, d))
    && (forall s, k, d :: Drawn(g, cs, s, k, d) ==> h.edges[Key(s, k, d)].props == marks)
    && (forall s, k, d :: Linked(g, s, k, d) && !Drawn(g, cs, s, k, d) ==> h.edges[Key(s, k, d)] == g.edges[Key(s, k, d)])
  }

  lemma DrawnSnoc(g: Graph, cs: seq<Command>, c: Command, s: Id, k: string, d: Id)
    ensures Drawn(g, cs + [c], s, k, d) <==>
              Drawn(g, cs, s, k, d)
              || (!c.Put? && c.src == s && c.kind == k && c.dst == d && (c.Connect? || c.guard in g.entities))
  {
    assert forall x :: x in cs + [c] <==> x in cs || x == c;
  }

  /** A command that draws its edge, and one that does not. */
  lemma LinkingsGrow(g: Graph, cs: seq<Command>, marks: map<string, Value>, h: Graph, c: Command)
    requires Linkings(g, cs, marks, h) && !c.Put? && c.props == marks && Clean(c.src) && Clean(c.kind)
    requires Linkable(g, c.src, c.dst)
    requires forall s, k, d :: Drawn(g, cs + [c], s, k, d) <==>
               Drawn(g, cs, s, k, d) || (c.src == s && c.kind == k && c.dst == d)
    ensures Linkings(g, cs + [c], marks, Link(h, c.src, c.kind, c.dst, c.props))
  {
    LinkLinked(h, c.src, c.kind, c.dst, c.props);
  }

  lemma LinkingsStay(g: Graph, cs: seq<Command>, marks: map<string, Value>, h: Graph, c: Command)
    requires Linkings(g, cs, marks, h)
    requires forall s, k, d :: Drawn(g, cs + [c], s, k, d) <==> Drawn(g, cs, s, k, d)
    ensures Linkings(g, cs + [c], marks, h)
  {}

  lemma LinkingsStep(g: Graph, cs: seq<Command>, marks: map<string, Value>, h: Graph, c: Command)
    requires Linkings(g, cs, marks, h) && !c.Put? && c.props == marks && Clean(c.src) && Clean(c.kind)
    ensures Step(h, c).ok <==> Runs(g, c)
    ensures Runs(g, c) ==> Linkings(g, cs + [c], marks, Step(h, c).graph)
    ensures !Runs(g, c) ==> Step(h, c).graph == h
  {
    forall s, k, d
      ensures Drawn(g, cs + [c], s, k, d) <==>
                Drawn(g, cs, s, k, d)
                || (c.src == s && c.kind == k && c.dst == d && (c.Connect? || c.guard in g.entities))
    {
      DrawnSnoc(g, cs, c, s, k, d);
    }
    if c.ConnectIf? && c.guard !in g.entities {
      LinkingsStay(g, cs, marks, h, c);
    } else if Linkable(g, c.src, c.dst) {
      LinkingsGrow(g, cs, marks, h, c);
    }
  }

  /** Links run one after another until one throws. */
  lemma {:induction false} LinksExec(g: Graph, cs: seq<Command>, marks: map<string, Value>) returns (n: nat)
    requires WellFormed(g) && CleanEdges(g)
    requires forall c :: c in cs ==> !c.Put? && c.props == marks && Clean(c.src) && Clean(c.kind)
    ensures Exec(g, cs).ok <==> forall c :: c in cs ==> Runs(g, c)
    ensures n <= |cs| && Linkings(g, cs[..n], marks, Exec(g, cs).graph)
    ensures Exec(g, cs).ok ==> n == |cs|
  {
    n := |cs|;
    assert cs[..n] == cs;
    if cs != [] {
      SplitLast(cs);
      n := LinksExec(g, cs[..|cs| - 1], marks);
      assert cs[..|cs| - 1][..n] == cs[..n];
      if Exec(g, cs[..|cs| - 1]).ok {
        LinkingsStep(g, cs[..|cs| - 1], marks, Exec(g, cs[..|cs| - 1]).graph, cs[|cs| - 1]);
        if Runs(g, cs[|cs| - 1]) {
          n := |cs|;
          assert cs[..n] == cs;
        }
      }
    }
  }

  // ------------------------------------------------------------------ the entity an event stores

  /** The name the entity gets. */
  function NameIs(e: Event): Value {
    var name, id := Get(e.payload, "name"), Get(e.payload, "id");
    match e.typ
    case ResearchRecorded => Get(e.payload, "title")
    case TaskCreated => Get(e.payload, "title")
    case ObservationRecorded => Get(e.payload, "metric")
    case StandardVersionRegistered =>
      List([OneOf(Get(e.payload, "standard_name"), Get(e.payload, "standard_id")), Get(e.payload, "version")])
    case FailureRecorded => OneOf(name, OneOf(Get(e.payload, "code"), id))
    case BuildStarted => OneOf(name, id)
    case BuildCompleted => OneOf(name, id)
    case DeploymentRecorded => OneOf(name, id)
    case ProcessRunStarted => OneOf(name, id)
    case ProcessRunCompleted => OneOf(name, id)
    case _ => name
  }

  /** The member that gets the event's time. */
  function TimedAs(e: Event): string {
    match e.typ
    case IdeaCreated => "seeded_at"
    case IdeaSeeded => "seeded_at"
    case ResearchRecorded => "recorded_at"
    case FailureRecorded => "recorded_at"
    case CapabilityDefined => "defined_at"
    case ProductGraduated => "graduated_at"
    case DeploymentRecorded => "deployed_at"
    case ObservationRecorded => "ingested_at"
    case ExperimentCreated => "created_at"
    case ExperimentArmCreated => "created_at"
    case TaskCreated => "created_at"
    case ProcessRunStarted => "running_at"
    case ProcessRunCompleted => "completed_at"
    case BuildStarted => (if Get(e.payload, "status").Str? then Text(e.payload, "status") else "running") + "_at"
    case BuildCompleted => (if Get(e.payload, "status").Str? then Text(e.payload, "status") else "completed") + "_at"
    case SiteRegistered => ""
    case _ => "registered_at"
  }

  /** The members that survive where the payload is slimmed; None where all of it is kept. */
  function Keeps(t: EventType): Option<set<string>> {
    match t
    case BuildStarted => Some({"id", "name", "idea_id", "build_run_id", "process_id", "rejected_reason"})
    case BuildCompleted => Some({"id", "name", "idea_id", "build_run_id", "process_id", "rejected_reason"})
    case SiteRegistered => Some({"id", "name", "domain", "runtime", "cloudflare_worker", "product_id", "telemetry_exemptions"})
    case StandardVersionRegistered => Some({"id", "standard_id", "standard_name", "version", "status", "previous_id"})
    case TaskCreated => Some({"id", "title", "subject_id", "kind", "risk_class", "status", "build_run_id"})
    case _ => None
  }

  /** A requirement, slimmed to its id and severity. */
  function Slimmed(v: Value): Value {
    if v.Obj? then Obj(map["id" := Get(v.fields, "id"), "severity" := Get(v.fields, "severity")])
    else Obj(map["id" := Undefined, "severity" := Undefined])
  }

  /** What a member of the entity's data is set to; None if the event leaves it as it was. */
  function Sets(e: Event, k: string): Option<Value> {
    if k == TimedAs(e) && !e.typ.SiteRegistered? then Some(Str(e.at))
    else if k == "status" && (e.typ.BuildStarted? || e.typ.ProcessRunStarted?)
    then Some(if e.typ.BuildStarted? && Get(e.payload, "status").Str? then Get(e.payload, "status") else Str("running"))
    else if k == "status" && (e.typ.BuildCompleted? || e.typ.ProcessRunCompleted?)
    then Some(if e.typ.BuildCompleted? && Get(e.payload, "status").Str? then Get(e.payload, "status") else Str("completed"))
    else if k == "requirements" && e.typ.StandardVersionRegistered?
    then
      var rs := Get(e.payload, k);
      Some(List(if rs.List? then seq(|rs.items|, i requires 0 <= i < |rs.items| => Slimmed(rs.items[i])) else []))
    else if Keeps(e.typ).None?
    then if k in e.payload then Some(e.payload[k]) else None
    else if k in Keeps(e.typ).value && !Get(e.payload, k).Undefined? then Some(Get(e.payload, k)) else None
  }

  /** The entity's own part: type, name and what is set in its data. */
  ghost predicate IsNode(e: Event, n: Entity) {
    && TypeOf(e.typ) == Some(n.typ) && n.id == IdOf(e) && n.fields == map["name" := NameIs(e)]
    && forall k :: (k in n.data <==> Sets(e, k).Some?) && (k in n.data ==> n.data[k] == Sets(e, k).value)
  }

  /** A node first, and links behind it. */
  ghost predicate NodeFirst(e: Event, cs: seq<Command>) {
    cs != [] && cs[0].Put? && IsNode(e, cs[0].entity) && forall i :: 1 <= i < |cs| ==> !cs[i].Put?
  }

  predicate Early(t: EventType) { t.IdeaGeneratorRegistered? || t.IdeaCreated? || t.IdeaSeeded? || t.ResearchRecorded? }

  lemma EarlyNode(e: Event)
    requires Early(e.typ)
    ensures NodeFirst(e, Commands(e))
  {}

  predicate Middle(t: EventType) { t.CapabilityDefined? || t.ProductGraduated? || t.DeploymentRecorded? }

  lemma MiddleNode(e: Event)
    requires Middle(e.typ)
    ensures NodeFirst(e, Commands(e))
  {}

  predicate Sensing(t: EventType) { t.StandardRegistered? || t.SensorRegistered? || t.ObservationRecorded? }

  lemma SensingNode(e: Event)
    requires Sensing(e.typ)
    ensures NodeFirst(e, Commands(e))
  {}

  predicate Late(t: EventType) { t.FailureRecorded? || t.ProcessRegistered? }

  lemma LateNode(e: Event)
    requires Late(e.typ)
    ensures NodeFirst(e, Commands(e))
  {}

  lemma TrialNode(e: Event)
    requires Trial(e.typ)
    ensures NodeFirst(e, Commands(e))
  {}

  lemma RunNode(e: Event)
    requires e.typ.ProcessRunStarted? || e.typ.ProcessRunCompleted?
    ensures NodeFirst(e, Commands(e))
  {
    assert "running_at"[0] != "status"[0] && "completed_at"[0] != "status"[0];
  }

  lemma SlimNode(e: Event)
    requires e.typ.SiteRegistered? || e.typ.TaskCreated?
    ensures NodeFirst(e, Commands(e))
  {
    assert "created_at"[0] == 'c' && "kind"[0] == 'k';
  }

  lemma VersionNode(e: Event)
    requires e.typ.StandardVersionRegistered?
    ensures NodeFirst(e, Commands(e))
  {
    var v := Get(e.payload, "requirements");
    assert "registered_at"[3] == 'i' && "requirements"[3] == 'u';
    if v.List? {
      var a, b := SlimRequirements(v).items, seq(|v.items|, i requires 0 <= i < |v.items| => Slimmed(v.items[i]));
      assert forall i :: 0 <= i < |v.items| ==> a[i] == b[i];
      assert a == b;
    }
  }

  lemma BuildNode(e: Event)
    requires e.typ.BuildStarted? || e.typ.BuildCompleted?
    ensures NodeFirst(e, Commands(e))
  {
    var stamp := BuildStatus(e) + "_at";
    assert stamp == TimedAs(e);
    assert stamp[|stamp| - 1] == 't' && "status"[5] == 's';
    assert stamp != "status";
  }

  lemma NodeIsFirst(e: Event)
    requires TypeOf(e.typ).Some?
    ensures NodeFirst(e, Commands(e))
  {
    if Early(e.typ) {
      EarlyNode(e);
    } else if Middle(e.typ) {
      MiddleNode(e);
    } else if Sensing(e.typ) {
      SensingNode(e);
    } else if Late(e.typ) {
      LateNode(e);
    } else if Trial(e.typ) {
      TrialNode(e);
    } else {
      match e.typ
      case BuildStarted => BuildNode(e);
      case BuildCompleted => BuildNode(e);
      case SiteRegistered => SlimNode(e);
      case TaskCreated => SlimNode(e);
      case StandardVersionRegistered => VersionNode(e);
      case ProcessRunStarted => RunNode(e);
      case ProcessRunCompleted => RunNode(e);
    }
  }

  // ------------------------------------------------------------------ the whole event

  /** The ids an event can link: those stored before, and its own. */
  ghost predicate Known(g: Graph, e: Event, id: Id) { id in g.entities || (TypeOf(e.typ).Some? && id == IdOf(e)) }

  /** Sources are free of the separator. */
  ghost predicate SeparatorFree(e: Event) { forall s, k, d :: Asks(e, s, k, d) ==> Clean(s) }

  lemma KindsAreClean(e: Event, s: Id, k: string, d: Id)
    requires Asks(e, s, k, d)
    ensures Clean(k)
  {}

  /** What an entity reads after the event: set members as set, the others as before. */
  ghost predicate Merges(g: Graph, e: Event, h: Graph) {
    var id := IdOf(e);
    && h.entities.Keys == g.entities.Keys + {id}
    && (forall x :: x in g.entities && x != id ==> h.entities[x] == g.entities[x])
    && h.entities[id].id == id && TypeOf(e.typ) == Some(h.entities[id].typ)
    && Get(h.entities[id].fields, "name") == NameIs(e)
    && forall k :: Get(h.entities[id].data, k)
                   == if Sets(e, k).Some? then Sets(e, k).value
                      else if id in g.entities then Get(g.entities[id].data, k) else Undefined
  }

  lemma UpsertMerges(g: Graph, e: Event, n: Entity)
    requires WellFormed(g) && IsNode(e, n)
    ensures Merges(g, e, Upsert(g, n))
  {}

  lemma {:induction false} ExecFirst(g: Graph, c: Command, cs: seq<Command>)
    ensures Exec(g, [c] + cs) == if Step(g, c).ok then Exec(Step(g, c).graph, cs) else Step(g, c)
  {
    if cs == [] {
      assert [c] + cs == [c] && [c][..0] == [];
      assert Exec(g, [c]) == Step(g, c);
    } else {
      ExecFirst(g, c, cs[..|cs| - 1]);
      assert ([c] + cs)[..|[c] + cs| - 1] == [c] + cs[..|cs| - 1];
    }
  }

  /** An event without an id stores nothing and throws; one with an id stores its entity, whatever its links do. */
  lemma EntityIs(g: Graph, e: Event)
    requires WellFormed(g)
    ensures TypeOf(e.typ).None? || IdOf(e) == "" ==> Project(g, e).graph.entities == g.entities
    ensures TypeOf(e.typ).Some? && IdOf(e) == "" ==> Project(g, e) == Outcome(g, false)
    ensures TypeOf(e.typ).Some? && IdOf(e) != "" ==> Merges(g, e, Project(g, e).graph)
  {
    if TypeOf(e.typ).Some? {
      NodeIsFirst(e);
      NodeExec(g, e, Commands(e));
    } else {
      NoNode(e);
      LinksKeepEntities(g, Commands(e));
    }
  }

  lemma NodeExec(g: Graph, e: Event, cs: seq<Command>)
    requires WellFormed(g) && NodeFirst(e, cs)
    ensures IdOf(e) == "" ==> Exec(g, cs) == Outcome(g, false)
    ensures IdOf(e) != "" ==> Merges(g, e, Exec(g, cs).graph)
  {
    assert cs == [cs[0]] + cs[1..];
    ExecFirst(g, cs[0], cs[1..]);
    if IdOf(e) != "" {
      UpsertMerges(g, e, cs[0].entity);
      LinksKeepEntities(Upsert(g, cs[0].entity), cs[1..]);
    }
  }

  lemma {:induction false} LinksKeepEntities(g: Graph, cs: seq<Command>)
    requires forall c :: c in cs ==> !c.Put?
    ensures Exec(g, cs).graph.entities == g.entities
  {
    if cs != [] {
      SplitLast(cs);
      LinksKeepEntities(g, cs[..|cs| - 1]);
    }
  }

  /** No end that has to be there is missing. */
  ghost predicate Complete(g: Graph, e: Event) {
    forall s, k, d :: Asks(e, s, k, d) && !Optional(e.typ, k) ==> Known(g, e, s) && Known(g, e, d)
  }

  /** What an event has done to the edges when `r` is its outcome. Sealed, to be used whole. */
  ghost predicate EdgesFollow(g: Graph, e: Event, r: Outcome) {
    forall mark {:trigger Unsealed(mark)} :: Unsealed(mark) ==>
      && WellFormed(r.graph) && CleanEdges(r.graph)
      && (forall s, k, d :: Linked(g, s, k, d) ==>
            Linked(r.graph, s, k, d) && (Asks(e, s, k, d) || r.graph.edges[Key(s, k, d)] == g.edges[Key(s, k, d)]))
      && (forall s, k, d :: Linked(r.graph, s, k, d) && !Linked(g, s, k, d) ==>
            Asks(e, s, k, d) && r.graph.edges[Key(s, k, d)].props == Marks(e))
      && (r.ok ==> forall s, k, d :: Asks(e, s, k, d) && Known(g, e, s) && Known(g, e, d) ==>
            Linked(r.graph, s, k, d) && r.graph.edges[Key(s, k, d)].props == Marks(e))
  }

  /** The links of an event, on the graph its entity is stored in. */
  ghost predicate Prepared(g: Graph, e: Event, h: Graph, cs: seq<Command>) {
    && WellFormed(h) && CleanEdges(h) && h.edges == g.edges && (forall id :: id in h.entities <==> Known(g, e, id))
    && (forall c :: c in cs ==> !c.Put?) && Carries(e, cs)
  }

  lemma AllRunIff(g: Graph, e: Event, h: Graph, cs: seq<Command>)
    requires Prepared(g, e, h, cs)
    ensures (forall c :: c in cs ==> Runs(h, c)) <==> Complete(g, e)
  {
    if Complete(g, e) {
      forall c | c in cs ensures Runs(h, c) { assert Asks(e, c.src, c.kind, c.dst); }
    } else {
      var s, k, d :| Asks(e, s, k, d) && !Optional(e.typ, k) && !(Known(g, e, s) && Known(g, e, d));
      assert Linking(cs, s, k, d);
      var c :| c in cs && !c.Put? && c.src == s && c.kind == k && c.dst == d;
      assert !Runs(h, c);
    }
  }

  lemma DrawnAsked(g: Graph, e: Event, h: Graph, cs: seq<Command>, part: seq<Command>, s: Id, k: string, d: Id)
    requires Prepared(g, e, h, cs) && (forall c :: c in part ==> c in cs)
    ensures Drawn(h, part, s, k, d) ==> Asks(e, s, k, d)
    ensures Asks(e, s, k, d) && Known(g, e, s) && Known(g, e, d) ==> Drawn(h, cs, s, k, d)
  {
    if Asks(e, s, k, d) {
      assert Linking(cs, s, k, d);
      var c :| c in cs && !c.Put? && c.src == s && c.kind == k && c.dst == d;
    }
  }

  lemma LinksFollow(g: Graph, e: Event, h: Graph, cs: seq<Command>, part: seq<Command>, r: Outcome)
    requires Prepared(g, e, h, cs) && (forall c :: c in part ==> c in cs) && (r.ok ==> part == cs)
    requires Linkings(h, part, Marks(e), r.graph)
    ensures EdgesFollow(g, e, r)
  {
    forall s, k, d
      ensures Drawn(h, part, s, k, d) ==> Asks(e, s, k, d)
      ensures Asks(e, s, k, d) && Known(g, e, s) && Known(g, e, d) ==> Drawn(h, cs, s, k, d)
    {
      DrawnAsked(g, e, h, cs, part, s, k, d);
    }
    assert forall s, k, d :: Linked(g, s, k, d) <==> Linked(h, s, k, d);
  }

  lemma LinksAre(g: Graph, e: Event, h: Graph, cs: seq<Command>)
    requires Prepared(g, e, h, cs) && SeparatorFree(e)
    ensures EdgesFollow(g, e, Exec(h, cs)) && (Exec(h, cs).ok <==> Complete(g, e))
  {
    forall c | c in cs ensures Clean(c.src) && Clean(c.kind) { KindsAreClean(e, c.src, c.kind, c.dst); }
    var n := LinksExec(h, cs, Marks(e));
    AllRunIff(g, e, h, cs);
    assert cs[..|cs|] == cs;
    LinksFollow(g, e, h, cs, cs[..n], Exec(h, cs));
  }

  lemma NothingFollows(g: Graph, e: Event)
    requires WellFormed(g) && CleanEdges(g)
    ensures EdgesFollow(g, e, Outcome(g, false))
  {}

  /** Storing the entity of an event leaves its links, to be drawn where its own id is known too. */
  lemma NodePrepares(g: Graph, e: Event) returns (h: Graph, links: seq<Command>)
    requires WellFormed(g) && CleanEdges(g) && TypeOf(e.typ).Some? && IdOf(e) != ""
    ensures Prepared(g, e, h, links) && Project(g, e) == Exec(h, links)
  {
    CommandsCarry(e);
    NodeIsFirst(e);
    h, links := FirstPrepares(g, e, Commands(e));
  }

  lemma FirstPrepares(g: Graph, e: Event, cs: seq<Command>) returns (h: Graph, links: seq<Command>)
    requires WellFormed(g) && CleanEdges(g) && TypeOf(e.typ).Some? && IdOf(e) != ""
    requires NodeFirst(e, cs) && Carries(e, cs)
    ensures Prepared(g, e, h, links) && Exec(g, cs) == Exec(h, links)
  {
    assert cs == [cs[0]] + cs[1..];
    ExecFirst(g, cs[0], cs[1..]);
    h, links := Upsert(g, cs[0].entity), cs[1..];
    StoredFirst(g, e, cs[0].entity);
    CarriesRest(e, cs);
  }

  lemma StoredFirst(g: Graph, e: Event, n: Entity)
    requires WellFormed(g) && CleanEdges(g) && IsNode(e, n) && IdOf(e) != ""
    ensures var h := Upsert(g, n);
            && Storable(n) && WellFormed(h) && CleanEdges(h) && h.edges == g.edges
            && (forall id :: id in h.entities <==> Known(g, e, id))
  {
    UpsertWellFormed(g, n);
  }

  lemma CarriesRest(e: Event, cs: seq<Command>)
    requires cs != [] && cs[0].Put? && Carries(e, cs)
    ensures Carries(e, cs[1..])
  {
    assert cs == [cs[0]] + cs[1..];
    assert forall c :: c in cs <==> c == cs[0] || c in cs[1..];
    forall s, k, d | Asks(e, s, k, d) ensures Linking(cs[1..], s, k, d) {
      assert Linking(cs, s, k, d);
      var c :| c in cs && !c.Put? && c.src == s && c.kind == k && c.dst == d;
    }
  }

  lemma EdgesFollowed(g: Graph, e: Event)
    requires WellFormed(g) && CleanEdges(g) && SeparatorFree(e)
    ensures EdgesFollow(g, e, Project(g, e))
    ensures Project(g, e).ok <==> (TypeOf(e.typ).Some? ==> IdOf(e) != "") && Complete(g, e)
  {
    if TypeOf(e.typ).None? {
      CommandsCarry(e);
      NoNode(e);
      LinksAre(g, e, g, Commands(e));
    } else if IdOf(e) == "" {
      EntityIs(g, e);
      NothingFollows(g, e);
    } else {
      var h, links := NodePrepares(g, e);
      LinksAre(g, e, h, links);
    }
  }

  lemma NoNode(e: Event)
    requires TypeOf(e.typ).None?
    ensures forall c :: c in Commands(e) ==> !c.Put?
  {}

  /**
   * What an event does to the edges. It goes through exactly when it has an id to store (if it stores anything) and
   * no required end is missing; then the edges are the old ones and those asked for whose ends are there. When it
   * throws, the old edges are still there, and no edge has come that was not asked for.
   */
  lemma EdgesAre(g: Graph, e: Event)
    requires WellFormed(g) && CleanEdges(g) && SeparatorFree(e)
    ensures var r := Project(g, e);
            && WellFormed(r.graph) && CleanEdges(r.graph)
            && (r.ok <==> (TypeOf(e.typ).Some? ==> IdOf(e) != "") && Complete(g, e))
            && (forall s, k, d :: Linked(g, s, k, d) ==>
                  Linked(r.graph, s, k, d) && (Asks(e, s, k, d) || r.graph.edges[Key(s, k, d)] == g.edges[Key(s, k, d)]))
            && (forall s, k, d :: Linked(r.graph, s, k, d) && !Linked(g, s, k, d) ==>
                  Asks(e, s, k, d) && r.graph.edges[Key(s, k, d)].props == Marks(e))
            && (r.ok ==> forall s, k, d :: Asks(e, s, k, d) && Known(g, e, s) && Known(g, e, d) ==>
                  Linked(r.graph, s, k, d) && r.graph.edges[Key(s, k, d)].props == Marks(e))
  {
    EdgesFollowed(g, e);
    assert Unsealed(true);
  }
}
