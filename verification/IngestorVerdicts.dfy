/**
 * What one ingest answers and does, as a table over the envelope, the log and the weather: which members are wrong,
 * which envelope the id already stands for, and what is stored when it stands for none.
 */
module IngestorVerdicts {
  import opened Values
  import opened Ingestor

  // ------------------------------------------------------------------ what is wrong with an envelope

  /** A letter and its capital, a hyphen and an underscore, or the same other character. */
  predicate Alike(x: char, y: char) {
    if 'a' <= x <= 'z' then 'A' <= y <= 'Z' && x as int - 'a' as int == y as int - 'A' as int
    else if x == '-' then y == '_'
    else x == y
  }

  predicate Spells(name: string, system: string) {
    |name| == |system| && forall i :: 0 <= i < |name| ==> Alike(name[i], system[i])
  }

  predicate Wrong(e: Envelope, f: Flaw) {
    match f
    case MissingId => e.id in {None, Some("")}
    case InvalidType => forall i :: 0 <= i < |EVENT_TYPES| ==> EVENT_TYPES[i] != e.kind
    case SchemaMismatch => e.schema != "1.0.0"
    case MissingOccurred => e.occurred == ""
    case MissingRecorded => e.recorded == ""
    case InvalidSystem =>
      e.system.Named? ==>
        !Spells(e.system.name, "FINALBUILDS2") && !Spells(e.system.name, "BUILDA_V2")
        && !Spells(e.system.name, "AGENTSEOLAB") && !Spells(e.system.name, "UNBUNDLED")
    case MissingSubject => e.subjectType == "" || e.subjectId == ""
    case MissingPayload => e.payload == None
  }

  /** The order in which flaws are reported. */
  function Place(f: Flaw): nat {
    match f
    case MissingId => 0
    case InvalidType => 1
    case SchemaMismatch => 2
    case MissingOccurred => 3
    case MissingRecorded => 4
    case InvalidSystem => 5
    case MissingSubject => 6
    case MissingPayload => 7
  }

  /** Exactly the wrong members, each once, in order. */
  ghost predicate Report(e: Envelope, fs: seq<Flaw>) {
    && (forall f :: f in fs <==> Wrong(e, f))
    && (forall i, j :: 0 <= i < j < |fs| ==> Place(fs[i]) < Place(fs[j]))
  }

  lemma UpperAlike(c: char, d: char)
    ensures Alike(c, d) <==> d == Upper([c])[0]
  {}

  lemma SpellsIff(name: string, system: string)
    ensures Spells(name, system) <==> Upper(name) == system
  {
    if |name| == |system| {
      forall i | 0 <= i < |name| ensures Alike(name[i], system[i]) <==> Upper(name)[i] == system[i] {
        UpperAlike(name[i], system[i]);
        assert Upper([name[i]])[0] == Upper(name)[i];
      }
    }
  }

  lemma SystemIff(e: Envelope)
    ensures Wrong(e, InvalidSystem) <==> !KnownSystem(e)
  {
    if e.system.Named? {
      SpellsIff(e.system.name, "FINALBUILDS2");
      SpellsIff(e.system.name, "BUILDA_V2");
      SpellsIff(e.system.name, "AGENTSEOLAB");
      SpellsIff(e.system.name, "UNBUNDLED");
      assert SYSTEMS == ["FINALBUILDS2", "BUILDA_V2", "AGENTSEOLAB", "UNBUNDLED"];
    }
  }

  /** What a stretch of the report holds: the wrong members with a place in it, in order. */
  ghost predicate Reports(e: Envelope, fs: seq<Flaw>, from: nat, to: nat) {
    && (forall f :: f in fs <==> Wrong(e, f) && from <= Place(f) < to)
    && (forall i, j :: 0 <= i < j < |fs| ==> Place(fs[i]) < Place(fs[j]))
  }

  lemma ReportsOne(e: Envelope, bad: bool, flaw: Flaw)
    requires bad <==> Wrong(e, flaw)
    ensures Reports(e, If(bad, flaw), Place(flaw), Place(flaw) + 1)
  {}

  lemma ReportsJoin(e: Envelope, a: seq<Flaw>, b: seq<Flaw>, from: nat, mid: nat, to: nat)
    requires from <= mid <= to && Reports(e, a, from, mid) && Reports(e, b, mid, to)
    ensures Reports(e, a + b, from, to)
  {
    forall i, j | 0 <= i < j < |a + b| ensures Place((a + b)[i]) < Place((a + b)[j]) {
      if i < |a| <= j { assert (a + b)[i] in a && (a + b)[j] in b; }
    }
    assert forall f :: f in a + b <==> f in a || f in b;
  }

  lemma FirstFlaws(e: Envelope) returns (fs: seq<Flaw>)
    ensures fs == If(!HasId(e), MissingId) + If(e.kind !in EVENT_TYPES, InvalidType)
                  + If(e.schema != CONTRACT_VERSION, SchemaMismatch) + If(e.occurred == "", MissingOccurred)
    ensures Reports(e, fs, 0, 4)
  {
    var a, b := If(!HasId(e), MissingId), If(e.kind !in EVENT_TYPES, InvalidType);
    var c, d := If(e.schema != CONTRACT_VERSION, SchemaMismatch), If(e.occurred == "", MissingOccurred);
    ReportsOne(e, !HasId(e), MissingId);
    ReportsOne(e, e.kind !in EVENT_TYPES, InvalidType);
    ReportsOne(e, e.schema != CONTRACT_VERSION, SchemaMismatch);
    ReportsOne(e, e.occurred == "", MissingOccurred);
    ReportsJoin(e, a, b, 0, 1, 2);
    ReportsJoin(e, a + b, c, 0, 2, 3);
    ReportsJoin(e, a + b + c, d, 0, 3, 4);
    fs := a + b + c + d;
  }

  lemma LastFlaws(e: Envelope) returns (fs: seq<Flaw>)
    ensures fs == If(e.recorded == "", MissingRecorded) + If(!KnownSystem(e), InvalidSystem)
                  + If(e.subjectType == "" || e.subjectId == "", MissingSubject) + If(e.payload.None?, MissingPayload)
    ensures Reports(e, fs, 4, 8)
  {
    var a, b := If(e.recorded == "", MissingRecorded), If(!KnownSystem(e), InvalidSystem);
    var c, d := If(e.subjectType == "" || e.subjectId == "", MissingSubject), If(e.payload.None?, MissingPayload);
    SystemReports(e);
    ReportsOne(e, e.recorded == "", MissingRecorded);
    ReportsOne(e, e.subjectType == "" || e.subjectId == "", MissingSubject);
    ReportsOne(e, e.payload.None?, MissingPayload);
    ReportsJoin(e, a, b, 4, 5, 6);
    ReportsJoin(e, a + b, c, 4, 6, 7);
    ReportsJoin(e, a + b + c, d, 4, 7, 8);
    fs := a + b + c + d;
  }

  lemma SystemReports(e: Envelope)
    ensures Reports(e, If(!KnownSystem(e), InvalidSystem), 5, 6)
  {
    SystemIff(e);
    ReportsOne(e, !KnownSystem(e), InvalidSystem);
  }

  lemma InHalves<T>(x: seq<T>, a: seq<T>, b: seq<T>, c: seq<T>, d: seq<T>)
    ensures x + a + b + c + d == x + (a + b + c + d)
  {}

  lemma WholeReports(e: Envelope, fs: seq<Flaw>)
    requires Reports(e, fs, 0, 8)
    ensures Report(e, fs)
  {}

  lemma FlawsAre(e: Envelope)
    ensures Report(e, Flaws(e))
  {
    var fs := FirstFlaws(e);
    var gs := LastFlaws(e);
    ReportsJoin(e, fs, gs, 0, 4, 8);
    InHalves(fs, If(e.recorded == "", MissingRecorded), If(!KnownSystem(e), InvalidSystem),
             If(e.subjectType == "" || e.subjectId == "", MissingSubject), If(e.payload.None?, MissingPayload));
    WholeReports(e, fs + gs);
  }

  // ------------------------------------------------------------------ the reply

  predicate Bears(x: Stored, id: Id) {
    match x
    case Legacy(own, _) => own == id
    case Canonical(e) => e.id == Some(id)
  }

  /** Entry `i` is the first of the log with the id. */
  ghost predicate FirstOf(log: seq<Stored>, id: Id, i: int) {
    && 0 <= i < |log| && Bears(log[i], id)
    && forall j :: 0 <= j < i ==> !Bears(log[j], id)
  }

  lemma {:induction false} FindFirst(log: seq<Stored>, id: Id)
    ensures Find(log, id).None? <==> forall x :: x in log ==> !Bears(x, id)
    ensures forall i :: FirstOf(log, id, i) ==> Find(log, id) == Some(log[i])
    ensures Find(log, id).Some? ==> exists i :: FirstOf(log, id, i)
  {
    if log != [] {
      FindFirst(log[1..], id);
      if Bears(log[0], id) {
        assert FirstOf(log, id, 0);
      } else {
        forall i | FirstOf(log, id, i) ensures Find(log, id) == Some(log[i]) {
          assert forall j :: 0 <= j < i - 1 ==> log[1..][j] == log[j + 1];
          assert FirstOf(log[1..], id, i - 1);
        }
        if i :| FirstOf(log[1..], id, i) {
          assert forall j :: 0 < j < i + 1 ==> log[j] == log[1..][j - 1];
          assert FirstOf(log, id, i + 1);
        }
      }
    }
  }

  /** Nothing is wrong, and a digest, if one is given, is that of the payload. */
  ghost predicate Sound(e: Envelope) {
    (forall f :: !Wrong(e, f)) && Untampered(e)
  }

  predicate Untampered(e: Envelope) { e.digest in {None, Some("")} || e.digest == e.payload }

  /** The log can be read, and `i` is where the id stands. */
  ghost predicate Meets(s: Store, e: Envelope, turn: Turn, i: int) {
    e.id.Some? && Sound(e) && turn.readable && FirstOf(s.log, e.id.value, i)
  }

  /** No stored event has the id, and the log can be read and written. */
  ghost predicate Enters(s: Store, e: Envelope, turn: Turn) {
    e.id.Some? && Sound(e) && turn.readable && turn.appends && forall x :: x in s.log ==> !Bears(x, e.id.value)
  }

  lemma SoundIff(e: Envelope)
    ensures Sound(e) <==> Fit(e)
    ensures (exists f :: Wrong(e, f)) <==> Flaws(e) != []
  {
    FlawsAre(e);
    if Flaws(e) != [] { assert Flaws(e)[0] in Flaws(e) && Wrong(e, Flaws(e)[0]); }
  }

  /** The table of replies. */
  lemma ReplyIs(s: Store, e: Envelope, turn: Turn)
    requires !e.system.NotText?
    ensures var r := Ingested(s, e, turn).1;
            && ((r.Rejected? && r.error.InvalidEnvelope?) <==> exists f :: Wrong(e, f))
            && (r.Rejected? && r.error.InvalidEnvelope? ==> Report(e, r.error.flaws))
            && ((r.Rejected? && r.error.HashMismatch?) <==> (forall f :: !Wrong(e, f)) && !Untampered(e))
            && ((r.Rejected? && r.error.Conflict?) <==> exists i :: Meets(s, e, turn, i) && s.log[i] != Canonical(e))
            && (r.Duplicate? <==> exists i :: Meets(s, e, turn, i) && s.log[i] == Canonical(e))
            && (r.Accepted? <==> Enters(s, e, turn) && turn.checkpoint != Some(false))
            && (r.Rejected? ==> r.rejected == e.id)
            && (r.Accepted? || r.Duplicate? ==> Some(r.id) == e.id)
            && (r.Accepted? ==> (r.projected <==> turn.statements.Some? && turn.taken >= |turn.statements.value|))
  {
    SoundIff(e);
    FlawsAre(e);
    if Fit(e) { FindFirst(s.log, e.id.value); }
  }

  lemma Persisted(s: Store, e: Envelope, turn: Turn)
    requires e.id.Some? && turn.appends
    ensures var t := Persist(s, e, turn).0;
            && t.log == s.log + [Canonical(e)]
            && t.checkpoint == (if turn.checkpoint == Some(true) then Some((e.id.value, e.occurred)) else s.checkpoint)
            && s.graph <= t.graph
            && (turn.statements.None? ==> t.graph == s.graph)
            && (turn.statements.Some? ==>
                  var ss := turn.statements.value;
                  && |t.graph| == |s.graph| + (if turn.taken < |ss| then turn.taken else |ss|)
                  && forall i :: |s.graph| <= i < |t.graph| ==> t.graph[i] == (e.id.value, ss[i - |s.graph|]))
  {}

  /** What enters is stored whole; the graph takes its first statements; the checkpoint moves if there is one. */
  lemma EntryIs(s: Store, e: Envelope, turn: Turn)
    ensures var t := Ingested(s, e, turn).0;
            && (t != s ==> Enters(s, e, turn) && !e.system.NotText?)
            && (Enters(s, e, turn) && !e.system.NotText? ==>
                  && t.log == s.log + [Canonical(e)]
                  && t.checkpoint == (if turn.checkpoint == Some(true) then Some((e.id.value, e.occurred)) else s.checkpoint)
                  && s.graph <= t.graph
                  && (turn.statements.None? ==> t.graph == s.graph)
                  && (turn.statements.Some? ==>
                        var ss := turn.statements.value;
                        && |t.graph| == |s.graph| + (if turn.taken < |ss| then turn.taken else |ss|)
                        && forall i :: |s.graph| <= i < |t.graph| ==> t.graph[i] == (e.id.value, ss[i - |s.graph|])))
  {
    SoundIff(e);
    if Fit(e) { FindFirst(s.log, e.id.value); }
    if Enters(s, e, turn) && !e.system.NotText? { Persisted(s, e, turn); }
  }

  lemma StepKeepsLog(s: Store, a: Act)
    ensures s.log <= Do(s, a).log
  {
    if a.Ingest? { IngestAddsAtMostOne(s, a.envelope, a.turn); }
  }

  /** What other writers append is on the log, whatever is ingested before and after. */
  lemma {:induction false} ForeignStays(s: Store, acts: seq<Act>, n: nat)
    requires n < |acts| && acts[n].Foreign?
    ensures acts[n].event in After(s, acts).log
  {
    var m := |acts| - 1;
    StepKeepsLog(After(s, acts[..m]), acts[m]);
    if n < m {
      ForeignStays(s, acts[..m], n);
    } else {
      assert After(s, acts).log[|After(s, acts[..m]).log|] == acts[n].event;
    }
  }
}
