/**
 * The projector: every event kind becomes a short list of graph commands, and a command
 * that cannot be carried out stops the projection where it stands.
 */
module Projector {
  import opened Values
  import opened GraphModel
  import opened GraphStore

  datatype EventType =
    | IdeaGeneratorRegistered | IdeaCreated | IdeaSeeded | ResearchRecorded | CapabilityDefined
    | BuildStarted | BuildCompleted | ProductGraduated | SiteRegistered | DeploymentRecorded
    | StandardRegistered | StandardVersionRegistered | SiteStandardDesired | SensorRegistered
    | ObservationRecorded | ExperimentCreated | ExperimentArmCreated | ExperimentArmAssigned
    | FailureRecorded | TaskCreated | ProcessRegistered | ProcessRunStarted | ProcessRunCompleted
    | OtherType(name: string)
    | NoType  // a canonical envelope: it carries `event_type`, not `type`

  datatype Event = Event(typ: EventType, at: string, payload: map<string, Value>)

  datatype Command =
    | Put(entity: Entity)
    | Connect(src: Id, kind: string, dst: Id, props: map<string, Value>)
    | ConnectIf(guard: Id, src: Id, kind: string, dst: Id, props: map<string, Value>)

  // ------------------------------------------------------------------ payload access

  function Get(p: map<string, Value>, k: string): Value { if k in p then p[k] else Undefined }

  /** A string field; absent or falsy reads as "". */
  function Text(p: map<string, Value>, k: string): string { if Get(p, k).Str? then Get(p, k).s else "" }

  function OrElse(a: Value, b: Value): Value { if a.Undefined? || a.Null? then b else a }

  function Slim(p: map<string, Value>, keys: set<string>): map<string, Value> {
    map k | k in keys && k in p && !p[k].Undefined? :: p[k]
  }

  function IdList(p: map<string, Value>, k: string): seq<string> {
    match Get(p, k)
    case List(items) => seq(|items|, i requires 0 <= i < |items| => if items[i].Str? then items[i].s else "")
    case _ => []
  }

  function SlimRequirements(v: Value): Value {
    match v
    case List(items) =>
      List(seq(|items|, i requires 0 <= i < |items| =>
        match items[i]
        case Obj(f) => Obj(map["id" := Get(f, "id"), "severity" := Get(f, "severity")])
        case _ => Obj(map["id" := Undefined, "severity" := Undefined])))
    case _ => List([])
  }

  // ------------------------------------------------------------------ commands of an event

  function Node(p: map<string, Value>, typ: string, name: Value, data: map<string, Value>): Command {
    Put(Entity(Text(p, "id"), typ, map["name" := name], data))
  }

  /** A link drawn only when the payload names the other end. */
  function LinkFrom(src: Id, kind: string, dst: Id, at: string): seq<Command> {
    if src == "" then [] else [Connect(src, kind, dst, map["at" := Str(at)])]
  }

  function LinkTo(src: Id, kind: string, dst: Id, at: string): seq<Command> {
    if dst == "" then [] else [Connect(src, kind, dst, map["at" := Str(at)])]
  }

  function LinksTo(src: Id, kind: string, dsts: seq<Id>, at: string): seq<Command> {
    seq(|dsts|, i requires 0 <= i < |dsts| => Connect(src, kind, dsts[i], map["at" := Str(at)]))
  }

  function Guarded(guard: Id, src: Id, kind: string, dst: Id, at: string): Command {
    ConnectIf(guard, src, kind, dst, map["at" := Str(at)])
  }

  function Inputs(id: Id, ids: seq<Id>, at: string): seq<Command> {
    seq(|ids|, i requires 0 <= i < |ids| => Guarded(ids[i], ids[i], "INPUT_TO", id, at))
  }

  function Outputs(id: Id, ids: seq<Id>, at: string): seq<Command> {
    seq(|ids|, i requires 0 <= i < |ids| => Guarded(ids[i], id, "OUTPUT_OF", ids[i], at))
  }

  /** An explicit payload status wins over the one the event type implies. */
  function BuildStatus(e: Event): string {
    if Get(e.payload, "status").Str? then Text(e.payload, "status")
    else if e.typ.BuildCompleted? then "completed" else "running"
  }

  function Stamped(p: map<string, Value>, key: string, at: string): map<string, Value> { p[key := Str(at)] }

  function Commands(e: Event): seq<Command> {
    var p, at := e.payload, e.at;
    var id := Text(p, "id");
    var name := Get(p, "name");
    match e.typ
    case IdeaGeneratorRegistered =>
      [Node(p, "IdeaGenerator", name, Stamped(p, "registered_at", at))]
    case IdeaCreated =>
      [Node(p, "Idea", name, Stamped(p, "seeded_at", at))] + LinkFrom(Text(p, "generator_id"), "GENERATED", id, at)
    case IdeaSeeded =>
      [Node(p, "Idea", name, Stamped(p, "seeded_at", at))] + LinkFrom(Text(p, "generator_id"), "GENERATED", id, at)
    case ResearchRecorded =>
      [Node(p, "ResearchReport", Get(p, "title"), Stamped(p, "recorded_at", at))]
      + LinkFrom(Text(p, "idea_id"), "RESEARCHED_BY", id, at)
      + LinkTo(id, "SUPPORTS", Text(p, "supports_standard_version_id"), at)
    case CapabilityDefined =>
      [Node(p, "Capability", name, Stamped(p, "defined_at", at))] + LinkFrom(Text(p, "idea_id"), "PROPOSES", id, at)
    case BuildStarted => BuildCommands(e)
    case BuildCompleted => BuildCommands(e)
    case ProductGraduated =>
      [Node(p, "Product", name, Stamped(p, "graduated_at", at))]
      + LinkFrom(Text(p, "build_run_id"), "PRODUCED", id, at)
      + LinksTo(id, "IMPLEMENTS", IdList(p, "capability_ids"), at)
    case SiteRegistered =>
      [Node(p, "Site", name, Slim(p, {"id", "name", "domain", "runtime", "cloudflare_worker", "product_id", "telemetry_exemptions"}))]
      + LinkFrom(Text(p, "product_id"), "EXPOSES", id, at)
    case DeploymentRecorded =>
      [Node(p, "Deployment", OrElse(name, Get(p, "id")), Stamped(p, "deployed_at", at))]
      + LinkFrom(Text(p, "site_id"), "DEPLOYED_AS", id, at)
    case StandardRegistered =>
      [Node(p, "Standard", name, Stamped(p, "registered_at", at))]
    case StandardVersionRegistered =>
      // The template literal `standard@version` is kept as the list of its parts.
      [Node(p, "StandardVersion", List([OrElse(Get(p, "standard_name"), Get(p, "standard_id")), Get(p, "version")]),
            Stamped(Slim(p, {"id", "standard_id", "standard_name", "version", "status", "previous_id"})
                    ["requirements" := SlimRequirements(Get(p, "requirements"))], "registered_at", at))]
      + (if Text(p, "previous_id") == "" then []
         else [Guarded(Text(p, "previous_id"), id, "SUPERSEDES", Text(p, "previous_id"), at)])
      + (if Text(p, "standard_id") == "" then []
         else [Guarded(Text(p, "standard_id"), Text(p, "standard_id"), "EXPOSES", id, at)])
    case SiteStandardDesired =>
      [Connect(Text(p, "site_id"), "CONFORMS_TO", Text(p, "standard_version_id"),
               map["desired" := Bool(true), "at" := Str(at), "source" := OrElse(Get(p, "source"), Str("registry"))])]
    case SensorRegistered =>
      [Node(p, "Sensor", name, Stamped(p, "registered_at", at))]
    case ObservationRecorded =>
      [Node(p, "Observation", Get(p, "metric"), Stamped(p, "ingested_at", at))]
      + LinkFrom(Text(p, "sensor_id"), "OBSERVED", id, at)
      + LinkFrom(Text(p, "subject_id"), "OBSERVED_BY", id, at)
      + LinkFrom(Text(p, "experiment_id"), "MEASURES", id, at)
    case ExperimentCreated =>
      [Node(p, "Experiment", name, Stamped(p, "created_at", at))]
      + LinkTo(id, "TESTS", Text(p, "standard_version_id"), at)
    case ExperimentArmCreated =>
      [Node(p, "ExperimentArm", name, Stamped(p, "created_at", at))]
      + LinkFrom(Text(p, "experiment_id"), "HAS_ARM", id, at)
    case ExperimentArmAssigned =>
      [Connect(Text(p, "arm_id"), "ASSIGNED_TO", Text(p, "site_id"),
               map["at" := Str(at), "bucket" := Get(p, "bucket")])]
    case FailureRecorded =>
      [Node(p, "Failure", OrElse(name, OrElse(Get(p, "code"), Get(p, "id"))), Stamped(p, "recorded_at", at))]
      + LinkFrom(Text(p, "subject_id"), "FAILED_WITH", id, at)
    case TaskCreated =>
      [Node(p, "Task", Get(p, "title"),
            Stamped(Slim(p, {"id", "title", "subject_id", "kind", "risk_class", "status", "build_run_id"}), "created_at", at))]
      + LinkFrom(Text(p, "subject_id"), "TRIGGERED", id, at)
    case ProcessRegistered =>
      [Node(p, "Process", name, Stamped(p, "registered_at", at))]
    case ProcessRunStarted => ProcessRunCommands(e, "running", "running_at")
    case ProcessRunCompleted => ProcessRunCommands(e, "completed", "completed_at")
    case OtherType(_) => []
    case NoType => []
  }

  function BuildCommands(e: Event): seq<Command> {
    var p := e.payload;
    var status := BuildStatus(e);
    [Node(p, "BuildRun", OrElse(Get(p, "name"), Get(p, "id")),
          Stamped(Slim(p, {"id", "name", "idea_id", "status", "build_run_id", "process_id", "rejected_reason"})
                  ["status" := Str(status)], status + "_at", e.at))]
    + LinkFrom(Text(p, "idea_id"), "BUILT_BY", Text(p, "id"), e.at)
  }

  function ProcessRunCommands(e: Event, status: string, stamp: string): seq<Command> {
    var p := e.payload;
    var id := Text(p, "id");
    [Node(p, "ProcessRun", OrElse(Get(p, "name"), Get(p, "id")), Stamped(p["status" := Str(status)], stamp, e.at))]
    + LinkFrom(Text(p, "process_id"), "EXECUTED", id, e.at)
    + Inputs(id, IdList(p, "input_ids"), e.at)
    + Outputs(id, IdList(p, "output_ids"), e.at)
  }

  // ------------------------------------------------------------------ running commands

  /** `ok` is false when a command threw; the graph is then what was reached before it. */
  datatype Outcome = Outcome(graph: Graph, ok: bool)

  function Joined(g: Graph, src: Id, kind: string, dst: Id, props: map<string, Value>): Outcome {
    if Linkable(g, src, dst) then Outcome(Link(g, src, kind, dst, props), true) else Outcome(g, false)
  }

  function Step(g: Graph, c: Command): Outcome {
    match c
    case Put(e) => if Storable(e) then Outcome(Upsert(g, e), true) else Outcome(g, false)
    case Connect(src, kind, dst, props) => Joined(g, src, kind, dst, props)
    case ConnectIf(guard, src, kind, dst, props) =>
      if guard in g.entities then Joined(g, src, kind, dst, props) else Outcome(g, true)
  }

  function Exec(g: Graph, cs: seq<Command>): Outcome {
    if cs == [] then Outcome(g, true)
    else
      var r := Exec(g, cs[..|cs| - 1]);
      if r.ok then Step(r.graph, cs[|cs| - 1]) else r
  }

  function Project(g: Graph, e: Event): Outcome { Exec(g, Commands(e)) }

  /** Events in order, stopping at the first that throws. */
  function ProjectAll(g: Graph, log: seq<Event>): Outcome {
    if log == [] then Outcome(g, true)
    else
      var r := ProjectAll(g, log[..|log| - 1]);
      if r.ok then Project(r.graph, log[|log| - 1]) else r
  }

  method ProjectEvent(graph: InMemoryGraphStore, e: Event) returns (ok: bool)
    requires graph.Valid()
    modifies graph
    ensures graph.Valid()
    ensures Outcome(graph.View(), ok) == Project(old(graph.View()), e)
  {
    var cs := Commands(e);
    for i := 0 to |cs|
      invariant graph.Valid()
      invariant Outcome(graph.View(), true) == Exec(old(graph.View()), cs[..i])
    {
      assert cs[..i + 1][..i] == cs[..i];
      var done := true;
      match cs[i] {
        case Put(entity) =>
          var r := graph.UpsertEntity(entity);
          done := r.Some?;
        case Connect(src, kind, dst, props) =>
          var r := graph.LinkEntities(src, kind, dst, props);
          done := r.Some?;
        case ConnectIf(guard, src, kind, dst, props) =>
          var g := graph.GetEntity(guard);
          if g.Some? {
            var r := graph.LinkEntities(src, kind, dst, props);
            done := r.Some?;
          }
      }
      if !done {
        ExecStops(old(graph.View()), cs, i + 1);
        return false;
      }
    }
    assert cs[..|cs|] == cs;
    ok := true;
  }

  lemma {:induction false} ExecStops(g: Graph, cs: seq<Command>, i: nat)
    requires i <= |cs| && !Exec(g, cs[..i]).ok
    ensures Exec(g, cs) == Exec(g, cs[..i])
    decreases |cs| - i
  {
    if i == |cs| {
      assert cs[..i] == cs;
    } else {
      assert cs[..i + 1][..i] == cs[..i];
      ExecStops(g, cs, i + 1);
    }
  }

  method RebuildProjection(graph: InMemoryGraphStore, log: seq<Event>) returns (ok: bool)
    modifies graph
    ensures graph.Valid()
    ensures Outcome(graph.View(), ok) == ProjectAll(EMPTY, log)
  {
    graph.Clear();
    for i := 0 to |log|
      invariant graph.Valid()
      invariant Outcome(graph.View(), true) == ProjectAll(EMPTY, log[..i])
    {
      assert log[..i + 1][..i] == log[..i];
      ok := ProjectEvent(graph, log[i]);
      if !ok {
        ProjectStops(EMPTY, log, i + 1);
        return;
      }
    }
    assert log[..|log|] == log;
    ok := true;
  }

  lemma {:induction false} ProjectStops(g: Graph, log: seq<Event>, i: nat)
    requires i <= |log| && !ProjectAll(g, log[..i]).ok
    ensures ProjectAll(g, log) == ProjectAll(g, log[..i])
    decreases |log| - i
  {
    if i == |log| {
      assert log[..i] == log;
    } else {
      assert log[..i + 1][..i] == log[..i];
      ProjectStops(g, log, i + 1);
    }
  }
}
