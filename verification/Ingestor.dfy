/**
 * The canonical ingestor: validate, look the id up in the log, append the exact envelope, project it
 * as far as the graph allows, move the checkpoint. Single and batch ingests share the one step.
 */
module Ingestor {
  import opened Values

  type Id = string
  type Statement = string

  // ------------------------------------------------------------------ envelopes

  datatype System = NoSystem | NotText | Named(name: string)

  /** An envelope as JSON text, member by member; `rest` is the text of the members nothing here reads. */
  datatype Envelope = Envelope(id: Option<Id>, kind: string, schema: string, occurred: string, recorded: string,
                               system: System, subjectType: string, subjectId: string, payload: Option<string>,
                               digest: Option<string>, rest: string)

  /** An event of the log: a canonical envelope, or an event the bus wrote to the shared file. */
  datatype Stored = Canonical(envelope: Envelope) | Legacy(id: Id, body: string)

  const CONTRACT_VERSION := "1.0.0"

  const EVENT_TYPES: seq<string> := [
    "idea.created", "idea.generator.executed", "research.recorded", "capability.defined", "capability.updated",
    "build.requested", "build.started", "build.attempt.started", "build.task.started", "build.task.completed",
    "build.failure.recorded", "build.repair.started", "build.repair.completed", "build.audit.completed",
    "build.artifact.created", "build.completed", "product.graduated", "site.registered", "deployment.started",
    "deployment.completed", "deployment.rolled_back", "observation.recorded", "observation.invalidated",
    "hypothesis.created", "experiment.created", "experiment.arm.created", "experiment.arm.assigned",
    "experiment.observation.recorded", "experiment.completed", "standard.registered", "standard.version.registered",
    "standard.conformance.observed", "strategy.registered", "strategy.version.registered", "strategy.evaluated",
    "strategy.promoted", "strategy.deprecated", "strategy.rolled_back", "failure.classified",
    "model.execution.recorded", "artifact.created", "artifact.invalidated"]

  const SYSTEMS: seq<string> := ["FINALBUILDS2", "BUILDA_V2", "AGENTSEOLAB", "UNBUNDLED"]

  function Upper(s: string): string {
    seq(|s|, i requires 0 <= i < |s| =>
      if 'a' <= s[i] <= 'z' then (s[i] as int - 'a' as int + 'A' as int) as char else if s[i] == '-' then '_' else s[i])
  }

  datatype Flaw = MissingId | InvalidType | SchemaMismatch | MissingOccurred | MissingRecorded | InvalidSystem
                | MissingSubject | MissingPayload

  function If(bad: bool, flaw: Flaw): seq<Flaw> { if bad then [flaw] else [] }

  predicate HasId(e: Envelope) { e.id.Some? && e.id.value != "" }

  predicate KnownSystem(e: Envelope) { e.system.Named? && Upper(e.system.name) in SYSTEMS }

  function Flaws(e: Envelope): seq<Flaw> {
    If(!HasId(e), MissingId) + If(e.kind !in EVENT_TYPES, InvalidType) + If(e.schema != CONTRACT_VERSION, SchemaMismatch)
    + If(e.occurred == "", MissingOccurred) + If(e.recorded == "", MissingRecorded) + If(!KnownSystem(e), InvalidSystem)
    + If(e.subjectType == "" || e.subjectId == "", MissingSubject) + If(e.payload.None?, MissingPayload)
  }

  /** The digest is modelled by the payload text it was taken of; an empty one is not checked. */
  predicate DigestOk(e: Envelope) {
    e.digest.None? || e.digest.value == "" || e.payload == e.digest
  }

  /** The envelope passes validation and the hash check; `toUpperCase` throws on a system that is not text. */
  predicate Fit(e: Envelope) { Flaws(e) == [] && DigestOk(e) }

  // ------------------------------------------------------------------ one ingest

  datatype Error = InvalidEnvelope(flaws: seq<Flaw>) | HashMismatch | Conflict

  datatype Reply =
    | Accepted(id: Id, projected: bool)
    | Duplicate(id: Id)
    | Rejected(rejected: Option<Id>, error: Error)
    | Threw

  /**
   * What one ingest meets: whether the log can be read and appended to, how many statements the projector
   * makes (None: it throws) and how many of them the graph takes, and how the checkpoint store, if any, does.
   */
  datatype Turn = Turn(readable: bool, appends: bool, statements: Option<seq<Statement>>, taken: nat, checkpoint: Option<bool>)

  datatype Store = Store(log: seq<Stored>, graph: seq<(Id, Statement)>, checkpoint: Option<(Id, string)>)

  function IdOf(s: Stored): Option<Id> { if s.Legacy? then Some(s.id) else s.envelope.id }

  function Find(log: seq<Stored>, id: Id): Option<Stored> {
    if log == [] then None
    else if IdOf(log[0]) == Some(id) then Some(log[0])
    else Find(log[1..], id)
  }

  function Tagged(id: Id, ss: seq<Statement>): seq<(Id, Statement)> { seq(|ss|, i requires 0 <= i < |ss| => (id, ss[i])) }

  function Taken(turn: Turn): seq<Statement> {
    if turn.statements.None? then []
    else if turn.taken < |turn.statements.value| then turn.statements.value[..turn.taken]
    else turn.statements.value
  }

  predicate Projected(turn: Turn) { turn.statements.Some? && turn.taken >= |turn.statements.value| }

  /** Append, project, move the checkpoint. */
  function Persist(s: Store, e: Envelope, turn: Turn): (Store, Reply)
    requires e.id.Some?
  {
    if !turn.appends then (s, Threw)
    else
      var done := Store(s.log + [Canonical(e)], s.graph + Tagged(e.id.value, Taken(turn)),
                        if turn.checkpoint == Some(true) then Some((e.id.value, e.occurred)) else s.checkpoint);
      (done, if turn.checkpoint == Some(false) then Threw else Accepted(e.id.value, Projected(turn)))
  }

  function Ingested(s: Store, e: Envelope, turn: Turn): (Store, Reply) {
    if e.system.NotText? then (s, Threw)
    else if Flaws(e) != [] then (s, Rejected(e.id, InvalidEnvelope(Flaws(e))))
    else if !DigestOk(e) then (s, Rejected(e.id, HashMismatch))
    else if !turn.readable then (s, Threw)
    else
      var existing := Find(s.log, e.id.value);
      if existing == Some(Canonical(e)) then (s, Duplicate(e.id.value))
      else if existing.Some? then (s, Rejected(e.id, Conflict))
      else Persist(s, e, turn)
  }

  // ------------------------------------------------------------------ the log

  lemma {:induction false} FindIff(log: seq<Stored>, id: Id)
    ensures Find(log, id).Some? <==> exists i :: 0 <= i < |log| && IdOf(log[i]) == Some(id)
    ensures Find(log, id).Some? ==> IdOf(Find(log, id).value) == Some(id) && Find(log, id).value in log
  {
    if log != [] {
      FindIff(log[1..], id);
      if i :| 0 <= i < |log| && IdOf(log[i]) == Some(id) && i > 0 { assert log[1..][i - 1] == log[i]; }
    }
  }

  lemma {:induction false} FindAppend(log: seq<Stored>, x: Stored, id: Id)
    ensures Find(log + [x], id)
         == if Find(log, id).Some? then Find(log, id) else if IdOf(x) == Some(id) then Some(x) else None
  {
    if log == [] {
      assert [x][1..] == [];
    } else {
      assert (log + [x])[1..] == log[1..] + [x];
      FindAppend(log[1..], x, id);
    }
  }

  /** No two stored events share an id. */
  ghost predicate OnePerId(log: seq<Stored>) {
    forall i, j :: 0 <= i < j < |log| && IdOf(log[i]).Some? ==> IdOf(log[i]) != IdOf(log[j])
  }

  /** An ingest adds nothing, or exactly the envelope it was given, under an id the log did not have. */
  lemma IngestAddsAtMostOne(s: Store, e: Envelope, turn: Turn)
    ensures var (t, r) := Ingested(s, e, turn);
            && (t.log == s.log || (t.log == s.log + [Canonical(e)] && Fit(e) && Find(s.log, e.id.value).None?))
            && (t.log == s.log ==> t == s)
            && (OnePerId(s.log) ==> OnePerId(t.log))
            && forall id :: Find(s.log, id).Some? ==> Find(t.log, id) == Find(s.log, id)
  {
    var t := Ingested(s, e, turn).0;
    if t != s {
      forall id ensures Find(s.log, id).Some? ==> Find(t.log, id) == Find(s.log, id) { FindAppend(s.log, Canonical(e), id); }
      FindIff(s.log, e.id.value);
    }
  }

  /** Whatever the projector and the graph do, the log, the checkpoint and the verdict are the same. */
  lemma ProjectionNeverMatters(s: Store, e: Envelope, turn: Turn, other: Turn)
    requires other == turn.(statements := other.statements, taken := other.taken)
    ensures var (t, r), (t', r') := Ingested(s, e, turn), Ingested(s, e, other);
            && t.log == t'.log && t.checkpoint == t'.checkpoint
            && (r.Accepted? <==> r'.Accepted?) && (!r.Accepted? ==> r == r')
  {}

  // ------------------------------------------------------------------ histories

  /** Between ingests other writers append their own events to the shared log. */
  datatype Act = Ingest(envelope: Envelope, turn: Turn) | Foreign(event: Stored)

  function Do(s: Store, a: Act): Store {
    match a
    case Ingest(e, turn) => Ingested(s, e, turn).0
    case Foreign(x) => s.(log := s.log + [x])
  }

  function After(s: Store, acts: seq<Act>): Store {
    if acts == [] then s else Do(After(s, acts[..|acts| - 1]), acts[|acts| - 1])
  }

  /** The other writers draw fresh ids. */
  ghost predicate FreshIds(s: Store, acts: seq<Act>) {
    forall n :: 0 <= n < |acts| && acts[n].Foreign? ==>
      IdOf(acts[n].event).Some? && Find(After(s, acts[..n]).log, IdOf(acts[n].event).value).None?
  }

  lemma FreshIdsFront(s: Store, acts: seq<Act>, n: nat)
    requires FreshIds(s, acts) && n <= |acts|
    ensures FreshIds(s, acts[..n])
  {
    assert forall m :: 0 <= m < n ==> acts[..n][..m] == acts[..m];
  }

  lemma ForeignStep(log: seq<Stored>, x: Stored)
    requires IdOf(x).Some? && Find(log, IdOf(x).value).None?
    ensures OnePerId(log) ==> OnePerId(log + [x])
    ensures forall id :: Find(log, id).Some? ==> Find(log + [x], id) == Find(log, id)
  {
    FindIff(log, IdOf(x).value);
    forall id ensures Find(log, id).Some? ==> Find(log + [x], id) == Find(log, id) { FindAppend(log, x, id); }
  }

  /** One envelope per id, and what is stored under an id never changes. */
  lemma {:induction false} HistoryKeepsFirst(s: Store, acts: seq<Act>)
    requires FreshIds(s, acts)
    ensures s.log <= After(s, acts).log
    ensures OnePerId(s.log) ==> OnePerId(After(s, acts).log)
    ensures forall id :: Find(s.log, id).Some? ==> Find(After(s, acts).log, id) == Find(s.log, id)
  {
    if acts != [] {
      var n := |acts| - 1;
      FreshIdsFront(s, acts, n);
      HistoryKeepsFirst(s, acts[..n]);
      var t := After(s, acts[..n]);
      match acts[n]
      case Ingest(e, turn) => IngestAddsAtMostOne(t, e, turn);
      case Foreign(x) => ForeignStep(t.log, x);
    }
  }

  /** What a settled ingest leaves behind: an unfit envelope, or its id taken. */
  lemma SettledLeaves(s: Store, e: Envelope, turn: Turn)
    requires !Ingested(s, e, turn).1.Threw?
    ensures !Fit(e) || Find(Ingested(s, e, turn).0.log, e.id.value).Some?
    ensures Ingested(s, e, turn).1.Accepted? || Ingested(s, e, turn).1.Duplicate? ==>
              Find(Ingested(s, e, turn).0.log, e.id.value) == Some(Canonical(e))
  {
    if Fit(e) { FindAppend(s.log, Canonical(e), e.id.value); }
  }

  /**
   * Ingesting again, after any history, changes nothing at all, however the graph and the checkpoint do
   * by then; and an envelope once accepted is told apart as a duplicate from then on.
   */
  lemma ReingestChangesNothing(s: Store, e: Envelope, turn: Turn, acts: seq<Act>, again: Turn)
    requires !Ingested(s, e, turn).1.Threw? && FreshIds(Ingested(s, e, turn).0, acts)
    ensures var t := After(Ingested(s, e, turn).0, acts);
            && Ingested(t, e, again).0 == t
            && (again.readable && (Ingested(s, e, turn).1.Accepted? || Ingested(s, e, turn).1.Duplicate?) ==>
                  Ingested(t, e, again).1 == Duplicate(e.id.value))
            && (Ingested(s, e, turn).1.Rejected? && again.readable ==> Ingested(t, e, again).1 == Ingested(s, e, turn).1)
  {
    SettledLeaves(s, e, turn);
    HistoryKeepsFirst(Ingested(s, e, turn).0, acts);
  }

  /** A thrown ingest loses nothing: it left the store alone, or the envelope is in and a retry is a duplicate. */
  lemma ThrowLosesNothing(s: Store, e: Envelope, turn: Turn, again: Turn)
    requires Ingested(s, e, turn).1.Threw? && Fit(e) && again.readable
    ensures var t := Ingested(s, e, turn).0;
            t == s || (t.log == s.log + [Canonical(e)] && Ingested(t, e, again) == (t, Duplicate(e.id.value)))
  {
    FindAppend(s.log, Canonical(e), e.id.value);
  }

  // ------------------------------------------------------------------ projection and checkpoint

  function StatementsOf(graph: seq<(Id, Statement)>, id: Id): seq<Statement> {
    if graph == [] then []
    else StatementsOf(graph[..|graph| - 1], id) + if graph[|graph| - 1].0 == id then [graph[|graph| - 1].1] else []
  }

  lemma StatementsSnoc(graph: seq<(Id, Statement)>, id: Id, own: Id, x: Statement)
    ensures StatementsOf(graph + [(own, x)], id) == StatementsOf(graph, id) + if own == id then [x] else []
  {
    assert (graph + [(own, x)])[..|graph|] == graph;
  }

  lemma {:induction false} StatementsAppend(graph: seq<(Id, Statement)>, id: Id, ss: seq<Statement>, own: Id)
    ensures StatementsOf(graph + Tagged(own, ss), id) == StatementsOf(graph, id) + if own == id then ss else []
  {
    if ss == [] {
      assert graph + Tagged(own, ss) == graph;
    } else {
      var n := |ss| - 1;
      StatementsAppend(graph, id, ss[..n], own);
      StatementsSnoc(graph + Tagged(own, ss[..n]), id, own, ss[n]);
      assert graph + Tagged(own, ss) == graph + Tagged(own, ss[..n]) + [(own, ss[n])];
      assert ss == ss[..n] + [ss[n]];
      assert StatementsOf(graph, id) + ss[..n] + [ss[n]] == StatementsOf(graph, id) + ss;
    }
  }

  /**
   * A projection that failed is never made up for: once the id is in the log, no history of ingests sends
   * another statement for it to the graph.
   */
  lemma {:induction false} ProjectedOnceOrNever(s: Store, acts: seq<Act>, id: Id)
    requires FreshIds(s, acts) && Find(s.log, id).Some?
    ensures StatementsOf(After(s, acts).graph, id) == StatementsOf(s.graph, id)
  {
    if acts != [] {
      var n := |acts| - 1;
      FreshIdsFront(s, acts, n);
      ProjectedOnceOrNever(s, acts[..n], id);
      HistoryKeepsFirst(s, acts[..n]);
      if acts[n].Ingest? { KnownIdStays(After(s, acts[..n]), acts[n].envelope, acts[n].turn, id); }
    }
  }

  lemma KnownIdStays(s: Store, e: Envelope, turn: Turn, id: Id)
    requires Find(s.log, id).Some?
    ensures StatementsOf(Ingested(s, e, turn).0.graph, id) == StatementsOf(s.graph, id)
  {
    if Ingested(s, e, turn).0 != s {
      IngestAddsAtMostOne(s, e, turn);
      StatementsAppend(s.graph, id, Taken(turn), e.id.value);
    }
  }

  /** The checkpoint tells the last persisted event, not the last projected one. */
  lemma CheckpointIsLastPersisted(s: Store, e: Envelope, turn: Turn)
    requires turn.checkpoint == Some(true)
    ensures var (t, r) := Ingested(s, e, turn);
            t.checkpoint == if t.log == s.log then s.checkpoint else Some((e.id.value, e.occurred))
  {}

  lemma CheckpointIgnoresProjection(s: Store, e: Envelope, turn: Turn)
    requires Fit(e) && turn.readable && turn.appends && turn.checkpoint == Some(true) && turn.statements.None?
    requires Find(s.log, e.id.value).None?
    ensures var (t, r) := Ingested(s, e, turn);
            r == Accepted(e.id.value, false) && t.checkpoint == Some((e.id.value, e.occurred)) && t.graph == s.graph
  {}

  // ------------------------------------------------------------------ batches

  /** Nothing is thrown: the log can be read and written, the checkpoint store works, systems are text. */
  predicate Calm(e: Envelope, turn: Turn) {
    turn.readable && turn.appends && turn.checkpoint != Some(false) && !e.system.NotText?
  }

  datatype Item = Item(envelope: Envelope, turn: Turn)

  function Ran(s: Store, items: seq<Item>): Store {
    if items == [] then s
    else Ingested(Ran(s, items[..|items| - 1]), items[|items| - 1].envelope, items[|items| - 1].turn).0
  }

  function Replies(s: Store, items: seq<Item>): (rs: seq<Reply>)
    ensures |rs| == |items|
  {
    seq(|items|, i requires 0 <= i < |items| => Ingested(Ran(s, items[..i]), items[i].envelope, items[i].turn).1)
  }

  /** Some fit item carries the id. */
  ghost predicate Holds(items: seq<Item>, id: Id) {
    exists j :: 0 <= j < |items| && Fit(items[j].envelope) && items[j].envelope.id == Some(id)
  }

  lemma HoldsSnoc(items: seq<Item>, id: Id)
    requires items != []
    ensures var n := |items| - 1;
            Holds(items, id) <==> Holds(items[..n], id) || (Fit(items[n].envelope) && items[n].envelope.id == Some(id))
  {
    var n := |items| - 1;
    assert forall j :: 0 <= j < n ==> items[..n][j] == items[j];
  }

  /** Item `i` is the first fit one with its id, and the log did not have the id. */
  ghost predicate IsFirst(log: seq<Stored>, items: seq<Item>, i: nat)
    requires i < |items|
  {
    Fit(items[i].envelope) && Find(log, items[i].envelope.id.value).None? && !Holds(items[..i], items[i].envelope.id.value)
  }

  /** What a batch adds to the log, told without running it: its first fit envelopes, in order. */
  ghost function Firsts(log: seq<Stored>, items: seq<Item>): seq<Stored> {
    if items == [] then []
    else
      var n := |items| - 1;
      Firsts(log, items[..n]) + if IsFirst(log, items, n) then [Canonical(items[n].envelope)] else []
  }

  lemma {:induction false} FirstsHold(log: seq<Stored>, items: seq<Item>, id: Id)
    ensures Find(log + Firsts(log, items), id).Some? <==> Find(log, id).Some? || Holds(items, id)
  {
    if items == [] {
      assert log + Firsts(log, items) == log;
    } else {
      var n := |items| - 1;
      FirstsHold(log, items[..n], id);
      HoldsSnoc(items, id);
      if IsFirst(log, items, n) {
        assert log + Firsts(log, items) == (log + Firsts(log, items[..n])) + [Canonical(items[n].envelope)];
        FindAppend(log + Firsts(log, items[..n]), Canonical(items[n].envelope), id);
      } else {
        assert Firsts(log, items) == Firsts(log, items[..n]);
      }
    }
  }

  /** A calm batch appends exactly its first fit envelopes. */
  lemma {:induction false} BatchAddsFirsts(s: Store, items: seq<Item>)
    requires forall x :: x in items ==> Calm(x.envelope, x.turn)
    ensures Ran(s, items).log == s.log + Firsts(s.log, items)
  {
    if items != [] {
      var n := |items| - 1;
      assert items[n] in items;
      BatchAddsFirsts(s, items[..n]);
      if Fit(items[n].envelope) { FirstsHold(s.log, items[..n], items[n].envelope.id.value); }
      assert s.log + Firsts(s.log, items)
          == (s.log + Firsts(s.log, items[..n])) + if IsFirst(s.log, items, n) then [Canonical(items[n].envelope)] else [];
    } else {
      assert s.log + Firsts(s.log, items) == s.log;
    }
  }

  /** The report's verdict on each item, told from the log and the items alone. */
  lemma {:induction false} VerdictIff(s: Store, items: seq<Item>, i: nat)
    requires i < |items| && forall x :: x in items ==> Calm(x.envelope, x.turn)
    ensures var e, r := items[i].envelope, Replies(s, items)[i];
            && !r.Threw?
            && (r.Accepted? <==> IsFirst(s.log, items, i))
            && (r.Duplicate? <==> Fit(e) && Find(s.log + Firsts(s.log, items[..i]), e.id.value) == Some(Canonical(e)))
            && (r.Rejected? <==> !Fit(e) || (Find(s.log + Firsts(s.log, items[..i]), e.id.value).Some?
                                           && Find(s.log + Firsts(s.log, items[..i]), e.id.value) != Some(Canonical(e))))
            && (r.Rejected? ==> r.rejected == e.id)
  {
    var e := items[i].envelope;
    assert items[i] in items;
    BatchAddsFirsts(s, items[..i]);
    if Fit(e) { FirstsHold(s.log, items[..i], e.id.value); }
  }

  // ------------------------------------------------------------------ the class

  datatype Report = Report(accepted: seq<Id>, duplicate: seq<Id>, rejected: seq<(Option<Id>, Error)>)

  function Summary(rs: seq<Reply>): Report {
    if rs == [] then Report([], [], [])
    else
      var p := Summary(rs[..|rs| - 1]);
      match rs[|rs| - 1]
      case Accepted(id, _) => p.(accepted := p.accepted + [id])
      case Duplicate(id) => p.(duplicate := p.duplicate + [id])
      case Rejected(id, error) => p.(rejected := p.rejected + [(id, error)])
      case Threw => p
  }

  /** Which of the three lists a reply belongs to. */
  datatype Column = AcceptedColumn | DuplicateColumn | RejectedColumn

  function ColumnOf(r: Reply): Option<Column> {
    match r
    case Accepted(_, _) => Some(AcceptedColumn)
    case Duplicate(_) => Some(DuplicateColumn)
    case Rejected(_, _) => Some(RejectedColumn)
    case Threw => None
  }

  function Count(rs: seq<Reply>, c: Column): nat {
    if rs == [] then 0 else Count(rs[..|rs| - 1], c) + if ColumnOf(rs[|rs| - 1]) == Some(c) then 1 else 0
  }

  /** The report partitions the batch in order: reply `i` is entry number `Count(rs[..i], its list)` of its list. */
  lemma {:induction false} ReportPartitions(rs: seq<Reply>, i: nat)
    requires i < |rs|
    ensures var p := Summary(rs);
            match rs[i]
            case Accepted(id, _) =>
              Count(rs[..i], AcceptedColumn) < |p.accepted| && p.accepted[Count(rs[..i], AcceptedColumn)] == id
            case Duplicate(id) =>
              Count(rs[..i], DuplicateColumn) < |p.duplicate| && p.duplicate[Count(rs[..i], DuplicateColumn)] == id
            case Rejected(id, error) =>
              Count(rs[..i], RejectedColumn) < |p.rejected| && p.rejected[Count(rs[..i], RejectedColumn)] == (id, error)
            case Threw => true
  {
    var n := |rs| - 1;
    SummaryCounts(rs[..n]);
    if i < n {
      ReportPartitions(rs[..n], i);
      assert rs[..n][..i] == rs[..i];
    }
  }

  lemma {:induction false} SummaryCounts(rs: seq<Reply>)
    ensures var p := Summary(rs);
            |p.accepted| == Count(rs, AcceptedColumn) && |p.duplicate| == Count(rs, DuplicateColumn)
            && |p.rejected| == Count(rs, RejectedColumn)
    ensures Threw !in rs ==> |Summary(rs).accepted| + |Summary(rs).duplicate| + |Summary(rs).rejected| == |rs|
  {
    if rs != [] {
      SummaryCounts(rs[..|rs| - 1]);
      assert rs[|rs| - 1] in rs;
    }
  }

  lemma BatchStep(s: Store, items: seq<Item>, n: nat)
    requires n < |items|
    ensures (Ran(s, items[..n + 1]), Replies(s, items)[n]) == Ingested(Ran(s, items[..n]), items[n].envelope, items[n].turn)
  {
    assert items[..n + 1][..n] == items[..n];
  }

  lemma RepliesGrow(s: Store, items: seq<Item>, n: nat)
    requires n < |items|
    ensures |Replies(s, items)| == |items| && Replies(s, items)[..n] + [Replies(s, items)[n]] == Replies(s, items)[..n + 1]
  {}

  class CanonicalEventIngestor {
    var log: seq<Stored>
    var graph: seq<(Id, Statement)>
    var checkpoint: Option<(Id, string)>

    function View(): Store
      reads this
    {
      Store(log, graph, checkpoint)
    }

    constructor (log: seq<Stored>)
      ensures View() == Store(log, [], None)
    {
      this.log, graph, checkpoint := log, [], None;
    }

    method Ingest(e: Envelope, turn: Turn) returns (reply: Reply)
      modifies this
      ensures (View(), reply) == Ingested(old(View()), e, turn)
    {
      if e.system.NotText? { return Threw; }
      if Flaws(e) != [] { return Rejected(e.id, InvalidEnvelope(Flaws(e))); }
      if !DigestOk(e) { return Rejected(e.id, HashMismatch); }
      if !turn.readable { return Threw; }
      var existing := Find(log, e.id.value);
      if existing.Some? {
        return if existing.value == Canonical(e) then Duplicate(e.id.value) else Rejected(e.id, Conflict);
      }
      if !turn.appends { return Threw; }
      log := log + [Canonical(e)];
      graph := graph + Tagged(e.id.value, Taken(turn));
      if turn.checkpoint == Some(false) { return Threw; }
      if turn.checkpoint == Some(true) { checkpoint := Some((e.id.value, e.occurred)); }
      return Accepted(e.id.value, Projected(turn));
    }

    /** Ingest the events in order; a throw aborts the batch (None) with the events before it ingested. */
    method IngestBatch(items: seq<Item>) returns (report: Option<Report>)
      modifies this
      ensures report.Some? <==> Threw !in Replies(old(View()), items)
      ensures report.Some? ==> View() == Ran(old(View()), items) && report.value == Summary(Replies(old(View()), items))
      ensures report.None? ==> exists n :: 0 <= n < |items| && Replies(old(View()), items)[n].Threw?
                                 && View() == Ran(old(View()), items[..n + 1])
    {
      ghost var s := View();
      var results: seq<Reply> := [];
      for n := 0 to |items|
        invariant results == Replies(s, items)[..n] && Threw !in results
        invariant View() == Ran(s, items[..n])
      {
        BatchStep(s, items, n);
        var reply := Ingest(items[n].envelope, items[n].turn);
        assert reply == Replies(s, items)[n];
        if reply.Threw? { return None; }
        RepliesGrow(s, items, n);
        results := results + [reply];
      }
      assert items[..|items|] == items && results == Replies(s, items);
      return Some(Summary(results));
    }
  }
}
