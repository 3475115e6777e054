/**
 * What the JSONL file keeps of an event: JSON text has no undefined members, and turns an undefined
 * list item into null.  The in-memory store keeps the event as it is.
 */
module Persistence {
  import opened Values
  import opened GraphModel
  import opened GraphStore
  import opened Projector

  datatype Medium = InMemory | JsonFile

  function StoredValue(v: Value): Value {
    match v
    case Undefined => Null
    case List(items) => List(seq(|items|, i requires 0 <= i < |items| => StoredValue(items[i])))
    case Obj(fields) => Obj(map k | k in fields && !fields[k].Undefined? :: StoredValue(fields[k]))
    case _ => v
  }

  function StoredFields(p: map<string, Value>): map<string, Value> {
    map k | k in p && !p[k].Undefined? :: StoredValue(p[k])
  }

  function StoredEvent(e: Event): Event { e.(payload := StoredFields(e.payload)) }

  function Written(m: Medium, e: Event): Event { if m.JsonFile? then StoredEvent(e) else e }

  /** Nothing undefined at any depth. */
  predicate Deep(v: Value) {
    match v
    case Undefined => false
    case List(items) => forall i :: 0 <= i < |items| ==> Deep(items[i])
    case Obj(fields) => forall k :: k in fields ==> Deep(fields[k])
    case _ => true
  }

  lemma {:induction false} StoredFixedIff(v: Value)
    ensures StoredValue(v) == v <==> Deep(v)
  {
    match v
    case List(items) =>
      forall i | 0 <= i < |items| ensures StoredValue(items[i]) == items[i] <==> Deep(items[i]) { StoredFixedIff(items[i]); }
      if StoredValue(v) == v {
        assert forall i :: 0 <= i < |items| ==> StoredValue(v).items[i] == StoredValue(items[i]);
      }
      assert Deep(v) ==> StoredValue(v).items == items;
    case Obj(fields) =>
      forall k | k in fields ensures StoredValue(fields[k]) == fields[k] <==> Deep(fields[k]) { StoredFixedIff(fields[k]); }
      if StoredValue(v) == v {
        assert forall k :: k in fields ==> k in StoredValue(v).fields;
      }
      assert Deep(v) ==> StoredValue(v).fields == fields;
    case _ =>
  }

  // ------------------------------------------------------------------ which events last

  /** Read from the payload or from the file, the member is the same. */
  predicate Survives(p: map<string, Value>, k: string) { Get(p, k).Undefined? || Deep(Get(p, k)) }

  /** The projector copies the whole payload, but for the members it overwrites. */
  predicate SpreadLasts(p: map<string, Value>, overwritten: set<string>) {
    forall k :: k in p && k !in overwritten ==> Deep(p[k])
  }

  /** The projector copies these members where they are defined. */
  predicate SlimLasts(p: map<string, Value>, keys: set<string>) { forall k :: k in keys ==> Survives(p, k) }

  lemma GetStored(p: map<string, Value>, k: string)
    ensures Get(StoredFields(p), k) == if Get(p, k).Undefined? then Undefined else StoredValue(Get(p, k))
    ensures Get(StoredFields(p), k) == Get(p, k) <==> Survives(p, k)
    ensures Text(StoredFields(p), k) == Text(p, k)
    ensures IdList(StoredFields(p), k) == IdList(p, k)
  {
    StoredFixedIff(Get(p, k));
    match Get(p, k)
    case List(items) =>
      assert forall i :: 0 <= i < |items| ==> (StoredValue(items[i]).Str? <==> items[i].Str?);
      assert forall i :: 0 <= i < |items| && items[i].Str? ==> StoredValue(items[i]) == items[i];
    case _ =>
  }

  lemma SlimStoredIff(p: map<string, Value>, keys: set<string>)
    ensures Slim(StoredFields(p), keys) == Slim(p, keys) <==> SlimLasts(p, keys)
  {
    var s, t := Slim(StoredFields(p), keys), Slim(p, keys);
    assert s.Keys == t.Keys;
    forall k | k in t ensures s[k] == t[k] <==> Survives(p, k) { GetStored(p, k); }
    if SlimLasts(p, keys) {
      assert s == t;
    } else {
      var k :| k in keys && !Survives(p, k);
      assert k in t && s[k] != t[k];
    }
  }

  lemma SpreadStoredIff(p: map<string, Value>, key: string, v: Value)
    ensures StoredFields(p)[key := v] == p[key := v] <==> SpreadLasts(p, {key})
  {
    var s, t := StoredFields(p)[key := v], p[key := v];
    forall k | k in p ensures StoredValue(p[k]) == p[k] <==> Deep(p[k]) { StoredFixedIff(p[k]); }
    if SpreadLasts(p, {key}) {
      assert s == t;
    } else {
      var k :| k in p && k !in {key} && !Deep(p[k]);
      assert k in t && (k !in s || s[k] != t[k]);
    }
  }

  predicate RequirementLasts(v: Value) {
    v.Obj? ==> Survives(v.fields, "id") && Survives(v.fields, "severity")
  }

  predicate RequirementsLast(v: Value) {
    v.List? ==> forall i :: 0 <= i < |v.items| ==> RequirementLasts(v.items[i])
  }

  const BUILD_KEYS: set<string> := {"id", "name", "idea_id", "build_run_id", "process_id", "rejected_reason"}
  const SITE_KEYS: set<string> := {"id", "name", "domain", "runtime", "cloudflare_worker", "product_id", "telemetry_exemptions"}
  const VERSION_KEYS: set<string> := {"id", "standard_id", "standard_name", "version", "status", "previous_id"}
  const TASK_KEYS: set<string> := {"id", "title", "subject_id", "kind", "risk_class", "status", "build_run_id"}

  /** The member under which an event kind stamps its time on a copied payload. */
  function Stamp(t: EventType): string {
    match t
    case IdeaCreated => "seeded_at"
    case IdeaSeeded => "seeded_at"
    case CapabilityDefined => "defined_at"
    case ProductGraduated => "graduated_at"
    case DeploymentRecorded => "deployed_at"
    case ObservationRecorded => "ingested_at"
    case ExperimentCreated => "created_at"
    case ExperimentArmCreated => "created_at"
    case ResearchRecorded => "recorded_at"
    case FailureRecorded => "recorded_at"
    case ProcessRunStarted => "running_at"
    case ProcessRunCompleted => "completed_at"
    case _ => "registered_at"
  }

  /** What a caller has to see to for the file to keep all that the projector reads of the event. */
  predicate Lasting(e: Event) {
    var p := e.payload;
    match e.typ
    case BuildStarted => SlimLasts(p, BUILD_KEYS)
    case BuildCompleted => SlimLasts(p, BUILD_KEYS)
    case SiteRegistered => SlimLasts(p, SITE_KEYS)
    case StandardVersionRegistered => SlimLasts(p, VERSION_KEYS) && RequirementsLast(Get(p, "requirements"))
    case TaskCreated => SlimLasts(p, TASK_KEYS)
    case SiteStandardDesired => Survives(p, "source")
    case ExperimentArmAssigned => Survives(p, "bucket")
    case ProcessRunStarted => SpreadLasts(p, {Stamp(e.typ), "status"})
    case ProcessRunCompleted => SpreadLasts(p, {Stamp(e.typ), "status"})
    case OtherType(_) => true
    case NoType => true
    case _ => SpreadLasts(p, {Stamp(e.typ)})
  }

  predicate Spreads(t: EventType) {
    !t.BuildStarted? && !t.BuildCompleted? && !t.SiteRegistered? && !t.StandardVersionRegistered? && !t.TaskCreated?
    && !t.SiteStandardDesired? && !t.ExperimentArmAssigned? && !t.ProcessRunStarted? && !t.ProcessRunCompleted?
    && !t.OtherType? && !t.NoType?
  }

  /** The text members, and the lists of ids, that links are drawn from are read alike from the file. */
  lemma TextsStored(p: map<string, Value>)
    ensures forall k :: Text(StoredFields(p), k) == Text(p, k) && IdList(StoredFields(p), k) == IdList(p, k)
    ensures forall k :: Get(StoredFields(p), k) == Get(p, k) <==> Survives(p, k)
    ensures forall k :: Get(StoredFields(p), k).Undefined? <==> Get(p, k).Undefined?
  {
    forall k
      ensures Text(StoredFields(p), k) == Text(p, k) && IdList(StoredFields(p), k) == IdList(p, k)
      ensures Get(StoredFields(p), k) == Get(p, k) <==> Survives(p, k)
      ensures Get(StoredFields(p), k).Undefined? <==> Get(p, k).Undefined?
    {
      GetStored(p, k);
    }
  }

  lemma SpreadData(e: Event)
    requires Spreads(e.typ)
    ensures Commands(e) != [] && Commands(e)[0].Put? && Commands(e)[0].entity.data == e.payload[Stamp(e.typ) := Str(e.at)]
  {}

  lemma NamesStored(p: map<string, Value>, overwritten: set<string>, k: string)
    requires SpreadLasts(p, overwritten) && k !in overwritten
    ensures Get(StoredFields(p), k) == Get(p, k)
  {
    GetStored(p, k);
  }

  predicate FewLinks(t: EventType) {
    t.IdeaGeneratorRegistered? || t.IdeaCreated? || t.IdeaSeeded? || t.CapabilityDefined? || t.DeploymentRecorded?
    || t.StandardRegistered? || t.SensorRegistered? || t.ProcessRegistered?
  }

  lemma FewLinksLast(e: Event)
    requires FewLinks(e.typ) && SpreadLasts(e.payload, {Stamp(e.typ)})
    ensures Commands(StoredEvent(e)) == Commands(e)
  {
    SpreadStoredIff(e.payload, Stamp(e.typ), Str(e.at));
    TextsStored(e.payload);
    NamesStored(e.payload, {Stamp(e.typ)}, "name");
    NamesStored(e.payload, {Stamp(e.typ)}, "id");
  }

  predicate Titled(t: EventType) { t.ResearchRecorded? || t.FailureRecorded? }

  lemma TitledLast(e: Event)
    requires Titled(e.typ) && SpreadLasts(e.payload, {Stamp(e.typ)})
    ensures Commands(StoredEvent(e)) == Commands(e)
  {
    SpreadStoredIff(e.payload, Stamp(e.typ), Str(e.at));
    TextsStored(e.payload);
    NamesStored(e.payload, {Stamp(e.typ)}, "name");
    NamesStored(e.payload, {Stamp(e.typ)}, "id");
    NamesStored(e.payload, {Stamp(e.typ)}, "title");
    NamesStored(e.payload, {Stamp(e.typ)}, "code");
  }

  predicate Experimental(t: EventType) { t.ExperimentCreated? || t.ExperimentArmCreated? }

  lemma ExperimentalLast(e: Event)
    requires Experimental(e.typ) && SpreadLasts(e.payload, {Stamp(e.typ)})
    ensures Commands(StoredEvent(e)) == Commands(e)
  {
    SpreadStoredIff(e.payload, Stamp(e.typ), Str(e.at));
    TextsStored(e.payload);
    NamesStored(e.payload, {Stamp(e.typ)}, "name");
  }

  lemma ManyLinksLast(e: Event)
    requires Spreads(e.typ) && !FewLinks(e.typ) && !Titled(e.typ) && !Experimental(e.typ)
    requires SpreadLasts(e.payload, {Stamp(e.typ)})
    ensures Commands(StoredEvent(e)) == Commands(e)
  {
    SpreadStoredIff(e.payload, Stamp(e.typ), Str(e.at));
    TextsStored(e.payload);
    NamesStored(e.payload, {Stamp(e.typ)}, "name");
    NamesStored(e.payload, {Stamp(e.typ)}, "metric");
  }

  lemma SpreadKind(e: Event)
    requires Spreads(e.typ)
    ensures Commands(StoredEvent(e)) == Commands(e) <==> SpreadLasts(e.payload, {Stamp(e.typ)})
  {
    SpreadStoredIff(e.payload, Stamp(e.typ), Str(e.at));
    SpreadData(e);
    SpreadData(StoredEvent(e));
    if SpreadLasts(e.payload, {Stamp(e.typ)}) {
      if FewLinks(e.typ) {
        FewLinksLast(e);
      } else if Titled(e.typ) {
        TitledLast(e);
      } else if Experimental(e.typ) {
        ExperimentalLast(e);
      } else {
        ManyLinksLast(e);
      }
    }
  }

  lemma RunKind(e: Event)
    requires e.typ.ProcessRunStarted? || e.typ.ProcessRunCompleted?
    ensures Commands(StoredEvent(e)) == Commands(e) <==> SpreadLasts(e.payload, {Stamp(e.typ), "status"})
  {
    var p, key := e.payload, Stamp(e.typ);
    var status := Str(if e.typ.ProcessRunCompleted? then "completed" else "running");
    TwoOverwrittenIff(p, "status", status, key, Str(e.at));
    RunData(e);
    RunData(StoredEvent(e));
    if SpreadLasts(p, {key, "status"}) { RunLasts(e); }
  }

  lemma RunData(e: Event)
    requires e.typ.ProcessRunStarted? || e.typ.ProcessRunCompleted?
    ensures Commands(e) != [] && Commands(e)[0].Put?
    ensures Commands(e)[0].entity.data
         == e.payload["status" := Str(if e.typ.ProcessRunCompleted? then "completed" else "running")][Stamp(e.typ) := Str(e.at)]
  {}

  lemma RunLasts(e: Event)
    requires e.typ.ProcessRunStarted? || e.typ.ProcessRunCompleted?
    requires SpreadLasts(e.payload, {Stamp(e.typ), "status"})
    ensures Commands(StoredEvent(e)) == Commands(e)
  {
    TwoOverwrittenIff(e.payload, "status", Str(if e.typ.ProcessRunCompleted? then "completed" else "running"),
                      Stamp(e.typ), Str(e.at));
    TextsStored(e.payload);
    NamesStored(e.payload, {Stamp(e.typ), "status"}, "name");
    NamesStored(e.payload, {Stamp(e.typ), "status"}, "id");
  }

  lemma TwoOverwrittenIff(p: map<string, Value>, j: string, u: Value, k: string, v: Value)
    ensures StoredFields(p)[j := u][k := v] == p[j := u][k := v] <==> SpreadLasts(p, {k, j})
  {
    var s, t := StoredFields(p)[j := u][k := v], p[j := u][k := v];
    forall i | i in p ensures StoredValue(p[i]) == p[i] <==> Deep(p[i]) { StoredFixedIff(p[i]); }
    if SpreadLasts(p, {k, j}) {
      assert s == t;
    } else {
      var i :| i in p && i !in {k, j} && !Deep(p[i]);
      assert i in t && (i !in s || s[i] != t[i]);
    }
  }

  // ------------------------------------------------------------------ slimmed kinds

  lemma BuildKind(e: Event)
    requires e.typ.BuildStarted? || e.typ.BuildCompleted?
    ensures Commands(StoredEvent(e)) == Commands(e) <==> SlimLasts(e.payload, BUILD_KEYS)
  {
    var p := e.payload;
    TextsStored(p);
    var keys := {"id", "name", "idea_id", "status", "build_run_id", "process_id", "rejected_reason"};
    var status := BuildStatus(e);
    assert BuildStatus(StoredEvent(e)) == status by { GetStored(p, "status"); }
    StampedSlimIff(p, keys, "status", Str(status), status + "_at", Str(e.at));
    BuildData(e);
    BuildData(StoredEvent(e));
    NotAKey(status);
    assert forall k :: k in keys && k != "status" && k != status + "_at" <==> k in BUILD_KEYS;
    if SlimLasts(p, BUILD_KEYS) { assert "name" in BUILD_KEYS && "id" in BUILD_KEYS; }
  }

  lemma NotAKey(status: string)
    ensures status + "_at" !in BUILD_KEYS
  {
    var s := status + "_at";
    assert s[|s| - 1] == 't' && s[|s| - 2] == 'a' && s[|s| - 3] == '_';
  }

  lemma BuildData(e: Event)
    requires e.typ.BuildStarted? || e.typ.BuildCompleted?
    ensures Commands(e) != [] && Commands(e)[0].Put?
    ensures Commands(e)[0].entity.data
         == Slim(e.payload, {"id", "name", "idea_id", "status", "build_run_id", "process_id", "rejected_reason"})
              ["status" := Str(BuildStatus(e))][BuildStatus(e) + "_at" := Str(e.at)]
  {}

  lemma StampedSlimIff(p: map<string, Value>, keys: set<string>, j: string, u: Value, k: string, v: Value)
    ensures Slim(StoredFields(p), keys)[j := u][k := v] == Slim(p, keys)[j := u][k := v] <==> SlimLasts(p, keys - {j, k})
  {
    var s, t := Slim(StoredFields(p), keys)[j := u][k := v], Slim(p, keys)[j := u][k := v];
    assert s.Keys == t.Keys;
    forall i | i in t && i != j && i != k ensures s[i] == t[i] <==> Survives(p, i) { GetStored(p, i); }
    if SlimLasts(p, keys - {j, k}) {
      assert s == t;
    } else {
      var i :| i in keys - {j, k} && !Survives(p, i);
      assert i in t && s[i] != t[i];
    }
  }

  lemma SiteKind(e: Event)
    requires e.typ.SiteRegistered?
    ensures Commands(StoredEvent(e)) == Commands(e) <==> SlimLasts(e.payload, SITE_KEYS)
  {
    TextsStored(e.payload);
    SlimStoredIff(e.payload, SITE_KEYS);
    assert Commands(e)[0].entity.data == Slim(e.payload, SITE_KEYS);
    assert Commands(StoredEvent(e))[0].entity.data == Slim(StoredFields(e.payload), SITE_KEYS);
    assert "name" in SITE_KEYS;
  }

  lemma TaskKind(e: Event)
    requires e.typ.TaskCreated?
    ensures Commands(StoredEvent(e)) == Commands(e) <==> SlimLasts(e.payload, TASK_KEYS)
  {
    var p := e.payload;
    TextsStored(p);
    StampedSlimIff(p, TASK_KEYS, "created_at", Str(e.at), "created_at", Str(e.at));
    assert TASK_KEYS - {"created_at", "created_at"} == TASK_KEYS;
    assert Commands(e)[0].entity.data == Slim(p, TASK_KEYS)["created_at" := Str(e.at)];
    assert Commands(StoredEvent(e))[0].entity.data == Slim(StoredFields(p), TASK_KEYS)["created_at" := Str(e.at)];
    StampTwice(Slim(p, TASK_KEYS), "created_at", Str(e.at));
    StampTwice(Slim(StoredFields(p), TASK_KEYS), "created_at", Str(e.at));
    assert "title" in TASK_KEYS;
  }

  lemma StampTwice(m: map<string, Value>, k: string, v: Value)
    ensures m[k := v][k := v] == m[k := v]
  {}

  lemma LinkKinds(e: Event)
    requires e.typ.SiteStandardDesired? || e.typ.ExperimentArmAssigned?
    ensures Commands(StoredEvent(e)) == Commands(e) <==> Lasting(e)
  {
    TextsStored(e.payload);
    if e.typ.ExperimentArmAssigned? {
      assert Commands(e)[0].props["bucket"] == Get(e.payload, "bucket");
      assert Commands(StoredEvent(e))[0].props["bucket"] == Get(StoredFields(e.payload), "bucket");
    } else {
      var source := Get(e.payload, "source");
      assert Commands(e)[0].props["source"] == OrElse(source, Str("registry"));
      assert Commands(StoredEvent(e))[0].props["source"] == OrElse(Get(StoredFields(e.payload), "source"), Str("registry"));
      GetStored(e.payload, "source");
    }
  }

  lemma RequirementStoredIff(v: Value)
    ensures v.Obj? ==> (RequirementLasts(v) <==>
              Get(StoredFields(v.fields), "id") == Get(v.fields, "id")
              && Get(StoredFields(v.fields), "severity") == Get(v.fields, "severity"))
  {
    if v.Obj? {
      GetStored(v.fields, "id");
      GetStored(v.fields, "severity");
    }
  }

  lemma RequirementsStoredIff(p: map<string, Value>)
    ensures SlimRequirements(Get(StoredFields(p), "requirements")) == SlimRequirements(Get(p, "requirements"))
       <==> RequirementsLast(Get(p, "requirements"))
  {
    GetStored(p, "requirements");
    var v := Get(p, "requirements");
    if v.List? {
      var a, b := SlimRequirements(v).items, SlimRequirements(StoredValue(v)).items;
      forall i | 0 <= i < |v.items| ensures a[i] == b[i] <==> RequirementLasts(v.items[i]) {
        RequirementStoredIff(v.items[i]);
        if v.items[i].Obj? {
          assert StoredValue(v).items[i] == Obj(StoredFields(v.items[i].fields));
          assert a[i].fields["id"] == Get(v.items[i].fields, "id")
              && a[i].fields["severity"] == Get(v.items[i].fields, "severity");
          assert b[i].fields["id"] == Get(StoredFields(v.items[i].fields), "id")
              && b[i].fields["severity"] == Get(StoredFields(v.items[i].fields), "severity");
        }
      }
      assert a == b <==> forall i :: 0 <= i < |v.items| ==> a[i] == b[i];
    }
  }

  lemma VersionData(e: Event)
    requires e.typ.StandardVersionRegistered?
    ensures Commands(e) != [] && Commands(e)[0].Put?
    ensures Commands(e)[0].entity.data
         == Slim(e.payload, VERSION_KEYS)["requirements" := SlimRequirements(Get(e.payload, "requirements"))]
                                         ["registered_at" := Str(e.at)]
  {}

  lemma VersionKind(e: Event)
    requires e.typ.StandardVersionRegistered?
    ensures Commands(StoredEvent(e)) == Commands(e) <==> Lasting(e)
  {
    var p := e.payload;
    RequirementsStoredIff(p);
    VersionData(e);
    VersionData(StoredEvent(e));
    var u, v := SlimRequirements(Get(StoredFields(p), "requirements")), SlimRequirements(Get(p, "requirements"));
    StampedSlimIff(p, VERSION_KEYS, "requirements", v, "registered_at", Str(e.at));
    assert VERSION_KEYS - {"requirements", "registered_at"} == VERSION_KEYS;
    var s := Slim(StoredFields(p), VERSION_KEYS);
    assert s["requirements" := u]["registered_at" := Str(e.at)]["requirements"] == u;
    assert Commands(e)[0].entity.data["requirements"] == v;
    if Lasting(e) { VersionLasts(e); }
  }

  lemma VersionLasts(e: Event)
    requires e.typ.StandardVersionRegistered? && Lasting(e)
    ensures Commands(StoredEvent(e)) == Commands(e)
  {
    TextsStored(e.payload);
    RequirementsStoredIff(e.payload);
    SlimStoredIff(e.payload, VERSION_KEYS);
    assert "standard_name" in VERSION_KEYS && "standard_id" in VERSION_KEYS && "version" in VERSION_KEYS;
  }

  /** The file keeps all that the projector reads of an event exactly when the event lasts. */
  lemma LastingIff(e: Event)
    ensures Commands(StoredEvent(e)) == Commands(e) <==> Lasting(e)
  {
    match e.typ
    case BuildStarted => BuildKind(e);
    case BuildCompleted => BuildKind(e);
    case SiteRegistered => SiteKind(e);
    case StandardVersionRegistered => VersionKind(e);
    case TaskCreated => TaskKind(e);
    case SiteStandardDesired => LinkKinds(e);
    case ExperimentArmAssigned => LinkKinds(e);
    case ProcessRunStarted => RunKind(e);
    case ProcessRunCompleted => RunKind(e);
    case OtherType(_) =>
    case NoType =>
    case _ => SpreadKind(e);
  }

  // ------------------------------------------------------------------ what a lost member does to the graph

  lemma SpreadId(e: Event)
    requires Spreads(e.typ)
    ensures Commands(e) != [] && Commands(e)[0].Put? && Commands(e)[0].entity.id == Text(e.payload, "id")
  {}

  /** What the graph reads as the member `k` of an entity: undefined when it is not there. */
  function Reading(g: Graph, id: Id, k: string): Value {
    if id in g.entities then Get(g.entities[id].data, k) else Undefined
  }

  /**
   * Exactly which members tell a rebuilt entity from the live one, for the events whose payload is copied: those
   * that hold something undefined within, and those that are undefined where the entity held a value before.
   */
  lemma LostMemberIff(g: Graph, e: Event, k: string)
    requires Spreads(e.typ) && Commands(e) != [] && Commands(e)[0].Put?
    ensures Commands(StoredEvent(e)) != [] && Commands(StoredEvent(e))[0].Put?
    ensures var live, kept := Commands(e)[0].entity, Commands(StoredEvent(e))[0].entity;
            Reading(Upsert(g, kept), live.id, k) == Reading(Upsert(g, live), live.id, k) <==>
              k == Stamp(e.typ) || Deep(Get(e.payload, k))
              || (Get(e.payload, k).Undefined? && (k in e.payload ==> Reading(g, live.id, k).Undefined?))
  {
    SpreadId(e);
    SpreadId(StoredEvent(e));
    GetStored(e.payload, "id");
    SpreadData(e);
    SpreadData(StoredEvent(e));
    GetStored(e.payload, k);
  }

  // ------------------------------------------------------------------ logs

  function WrittenLog(m: Medium, log: seq<Event>): seq<Event> {
    seq(|log|, i requires 0 <= i < |log| => Written(m, log[i]))
  }

  lemma {:induction false} LastingLogProjects(g: Graph, m: Medium, log: seq<Event>)
    requires m.InMemory? || forall e :: e in log ==> Lasting(e)
    ensures ProjectAll(g, WrittenLog(m, log)) == ProjectAll(g, log)
  {
    if log != [] {
      var n := |log| - 1;
      assert log[n] in log && forall e :: e in log[..n] ==> e in log;
      assert WrittenLog(m, log)[..n] == WrittenLog(m, log[..n]);
      LastingLogProjects(g, m, log[..n]);
      if m.JsonFile? { LastingIff(log[n]); }
    }
  }

  function Registration(name: Value): Event {
    Event(IdeaGeneratorRegistered, "t", map["id" := Str("g"), "name" := name])
  }

  /** Registered again without a name: live the name is undefined, rebuilt from the file it is the old one. */
  lemma UndefinedNameComesBack()
    ensures var log := [Registration(Str("N")), Registration(Undefined)];
            var live, rebuilt := ProjectAll(EMPTY, log), ProjectAll(EMPTY, WrittenLog(JsonFile, log));
            && live.ok && rebuilt.ok && "g" in live.graph.entities && "g" in rebuilt.graph.entities
            && Get(live.graph.entities["g"].data, "name") == Undefined
            && Get(rebuilt.graph.entities["g"].data, "name") == Str("N")
  {
    var a, b := Registration(Str("N")), Registration(Undefined);
    assert StoredFields(a.payload) == a.payload;
    assert Text(StoredFields(b.payload), "id") == "g" by { GetStored(b.payload, "id"); }
    RegisteredTwice(a, b);
    RegisteredTwice(a, StoredEvent(b));
    assert WrittenLog(JsonFile, [a, b]) == [a, StoredEvent(b)];
  }

  lemma RegisteredTwice(a: Event, b: Event)
    requires a == Registration(Str("N")) && b.typ.IdeaGeneratorRegistered? && b.at == a.at && Text(b.payload, "id") == "g"
    ensures var r := ProjectAll(EMPTY, [a, b]);
            && r.ok && "g" in r.graph.entities
            && Get(r.graph.entities["g"].data, "name") == if "name" in b.payload then b.payload["name"] else Str("N")
  {
    RegistrationProjects(EMPTY, a);
    RegistrationProjects(Project(EMPTY, a).graph, b);
    TwoEvents(a, b);
  }

  lemma TwoEvents(a: Event, b: Event)
    requires Project(EMPTY, a).ok
    ensures ProjectAll(EMPTY, [a, b]) == Project(Project(EMPTY, a).graph, b)
  {
    assert [a, b][..1] == [a] && [a][..0] == [];
    assert ProjectAll(EMPTY, [a]) == Project(EMPTY, a);
  }

  lemma RegistrationProjects(g: Graph, e: Event)
    requires e.typ.IdeaGeneratorRegistered? && Text(e.payload, "id") == "g"
    ensures Project(g, e).ok && "g" in Project(g, e).graph.entities
    ensures Project(g, e).graph.entities["g"].data
         == (if "g" in g.entities then g.entities["g"].data else map[]) + e.payload["registered_at" := Str(e.at)]
  {
    var c := Commands(e)[0];
    assert Commands(e) == [c] && [c][..0] == [];
    assert Exec(g, []) == Outcome(g, true);
  }
}
