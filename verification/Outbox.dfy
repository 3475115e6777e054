/**
 * The repair outbox consumer: a restartable loop over the task queue with two files, the list of
 * consumed tasks, written only at the end of a run, and the ledger of open repairs, written after
 * every accepted dispatch.
 */
module Outbox {
  import opened Values
  import Sorting

  type Id = string

  // ------------------------------------------------------------------ tasks and repair keys

  datatype Requirement = Requirement(id: string, severity: string)

  /** A line of the queue: text that does not parse, or a task; absent members are None. */
  datatype Line =
    | Malformed
    | Task(id: Option<Id>, kind: Option<string>, status: Option<string>,
           site: Option<string>, subject: Option<string>, version: Option<string>)

  /** What the hash is taken of: site, standard version, and the joined ids of the violated requirements. */
  datatype Key = Key(site: string, version: string, failed: string)

  predicate NotARepair(t: Line)
    requires t.Task?
  {
    t.kind == Some("product-build") || t.status == Some("workorder-created") || t.status == Some("dispatch-failed")
  }

  function Site(t: Line): string
    requires t.Task?
  {
    if t.site.Some? then t.site.value else if t.subject.Some? then t.subject.value else "unknown_site"
  }

  function Version(t: Line): string
    requires t.Task?
  {
    if t.version.Some? then t.version.value else ""
  }

  function Violated(reqs: seq<Requirement>): seq<string> {
    if reqs == [] then []
    else Violated(reqs[..|reqs| - 1]) + if reqs[|reqs| - 1].severity != "info" then [reqs[|reqs| - 1].id] else []
  }

  function Joined(ids: seq<string>): string {
    if ids == [] then "" else if |ids| == 1 then ids[0]
    else Joined(ids[..|ids| - 1]) + "," + ids[|ids| - 1]
  }

  /** The key of a task, given what the graph answers for its standard; `le` is the text order of sort. */
  function KeyOf(le: (string, string) -> bool, t: Line, reqs: seq<Requirement>): Key
    requires t.Task?
  {
    Key(Site(t), Version(t), Joined(Sorting.Sort(le, Violated(if Version(t) == "" then [] else reqs))))
  }

  ghost predicate TextOrder(le: (string, string) -> bool) {
    Sorting.TotalPreorder(le) && forall a, b :: le(a, b) && le(b, a) ==> a == b
  }

  lemma {:induction false} ViolatedConcat(a: seq<Requirement>, b: seq<Requirement>)
    ensures Violated(a + b) == Violated(a) + Violated(b)
  {
    if b == [] {
      assert a + b == a;
    } else {
      var n := |b| - 1;
      ViolatedConcat(a, b[..n]);
      assert (a + b)[..|a + b| - 1] == a + b[..n];
    }
  }

  lemma BagOfMiddle(a: seq<string>, x: seq<string>, b: seq<string>)
    ensures multiset(a + (x + b)) == multiset(a + b) + multiset(x)
  {}

  lemma ViolatedMiddle(a: seq<Requirement>, x: Requirement, b: seq<Requirement>)
    ensures multiset(Violated(a + ([x] + b))) == multiset(Violated(a + b)) + multiset(Violated([x]))
  {
    ViolatedConcat(a, [x] + b);
    ViolatedConcat([x], b);
    ViolatedConcat(a, b);
    BagOfMiddle(Violated(a), Violated([x]), Violated(b));
  }

  /** Reordering the requirements reorders the violated ids. */
  lemma {:induction false} ViolatedBag(reqs: seq<Requirement>, more: seq<Requirement>)
    requires multiset(reqs) == multiset(more)
    ensures multiset(Violated(reqs)) == multiset(Violated(more))
    decreases |reqs|
  {
    assert |reqs| == |multiset(reqs)| == |multiset(more)| == |more|;
    if reqs != [] {
      var n := |reqs| - 1;
      var front, x := reqs[..n], reqs[n];
      assert reqs == front + ([x] + []);
      assert x in multiset(more);
      var i :| 0 <= i < |more| && more[i] == x;
      var a, b := more[..i], more[i + 1..];
      assert more == a + ([x] + b);
      Sorting.RemoveAt(more, i);
      ViolatedBag(front, a + b);
      ViolatedMiddle(front, x, []);
      ViolatedMiddle(a, x, b);
      assert front + [] == front;
    }
  }

  /** The key is a condition, not an answer: it ignores the order of the requirement list. */
  lemma KeyIgnoresOrder(le: (string, string) -> bool, t: Line, reqs: seq<Requirement>, more: seq<Requirement>)
    requires t.Task? && TextOrder(le) && multiset(reqs) == multiset(more)
    ensures KeyOf(le, t, reqs) == KeyOf(le, t, more)
  {
    ViolatedBag(reqs, more);
    Sorting.SortBag(le, Violated(reqs));
    Sorting.SortBag(le, Violated(more));
    Sorting.SortSorted(le, Violated(reqs));
    Sorting.SortSorted(le, Violated(more));
    Sorting.SortedUnique(le, Sorting.Sort(le, Violated(reqs)), Sorting.Sort(le, Violated(more)));
  }

  // ------------------------------------------------------------------ one line of the queue

  /** How a dispatch ends; the last two are deaths after the agent has accepted the brief. */
  datatype Fate = Refused | Accepted | DiesUnrecorded | DiesRecorded

  /** What a line meets: death before it, the graph's answer (None: unreachable, which ends the run), the dispatch. */
  datatype Turn = Turn(dies: bool, answer: Option<seq<Requirement>>, fate: Fate)

  datatype Job = Job(line: Line, turn: Turn)

  datatype Nature = NoTask | NoRepair(id: Id) | Unkeyed(id: Id) | Repair(id: Id, key: Key)

  datatype Case = Case(nature: Nature, dies: bool, fate: Fate)

  function CaseOf(le: (string, string) -> bool, j: Job): Case {
    var t := j.line;
    Case(if t.Malformed? || t.id.None? || t.id.value == "" then NoTask
         else if NotARepair(t) then NoRepair(t.id.value)
         else if j.turn.answer.None? then Unkeyed(t.id.value)
         else Repair(t.id.value, KeyOf(le, t, j.turn.answer.value)),
         j.turn.dies, j.turn.fate)
  }

  function Cases(le: (string, string) -> bool, jobs: seq<Job>): (cs: seq<Case>)
    ensures |cs| == |jobs| && forall i :: 0 <= i < |jobs| ==> cs[i] == CaseOf(le, jobs[i])
  {
    seq(|jobs|, i requires 0 <= i < |jobs| => CaseOf(le, jobs[i]))
  }

  // ------------------------------------------------------------------ one run

  datatype Dispatch = Dispatch(key: Key, id: Id)

  /** The two files, and every dispatch the agent has accepted so far. */
  datatype Disk = Disk(consumed: seq<Id>, open: map<Key, Id>, dispatches: seq<Dispatch>)

  const EMPTY := Disk([], map[], [])

  /** A run: its own consumed list and ledger, the files, and whether it has ended early. */
  datatype Run = Run(consumed: seq<Id>, open: map<Key, Id>, disk: Disk, dead: bool)

  /** An unreadable file reads as empty. */
  function Opened(d: Disk, stateReadable: bool, ledgerReadable: bool): Run {
    Run(if stateReadable then d.consumed else [], if ledgerReadable then d.open else map[], d, false)
  }

  function Dispatched(r: Run, key: Key, id: Id): Run {
    r.(disk := r.disk.(dispatches := r.disk.dispatches + [Dispatch(key, id)]))
  }

  function Recorded(r: Run, key: Key, id: Id): Run {
    r.(open := r.open[key := id], disk := r.disk.(open := r.open[key := id]))
  }

  function Next(r: Run, c: Case): Run {
    if r.dead || c.dies then r.(dead := true)
    else if c.nature.NoTask? || c.nature.id in r.consumed then r
    else
      var id := c.nature.id;
      match c.nature
      case NoRepair(_) => r.(consumed := r.consumed + [id])
      case Unkeyed(_) => r.(dead := true)
      case Repair(_, key) =>
        if key in r.open then r.(consumed := r.consumed + [id])
        else match c.fate
             case Refused => r
             case Accepted => Recorded(Dispatched(r, key, id), key, id).(consumed := r.consumed + [id])
             case DiesUnrecorded => Dispatched(r, key, id).(dead := true)
             case DiesRecorded => Recorded(Dispatched(r, key, id), key, id).(dead := true)
  }

  function After(r: Run, cs: seq<Case>): Run {
    if cs == [] then r else Next(After(r, cs[..|cs| - 1]), cs[|cs| - 1])
  }

  lemma AfterSnoc(r: Run, cs: seq<Case>, n: nat)
    requires n < |cs|
    ensures After(r, cs[..n + 1]) == Next(After(r, cs[..n]), cs[n])
  {
    assert cs[..n + 1][..n] == cs[..n];
  }

  const BOUND := 500

  function Bounded(consumed: seq<Id>): seq<Id> {
    if |consumed| <= BOUND then consumed else consumed[|consumed| - BOUND..]
  }

  /** A run that gets to its end writes the last 500 consumed ids. */
  function Closed(r: Run): Disk { if r.dead then r.disk else r.disk.(consumed := Bounded(r.consumed)) }

  class OutboxConsumer {
    var state: seq<Id>
    var openRepairs: map<Key, Id>
    ghost var dispatches: seq<Dispatch>
    const le: (string, string) -> bool

    ghost function View(): Disk
      reads this
    {
      Disk(state, openRepairs, dispatches)
    }

    constructor (le: (string, string) -> bool)
      ensures View() == EMPTY && this.le == le
    {
      this.le := le;
      state, openRepairs, dispatches := [], map[], [];
    }

    /** One run over the queue. */
    method Consume(jobs: seq<Job>, stateReadable: bool, ledgerReadable: bool) returns (acted: nat, done: bool)
      modifies this
      ensures var r := After(Opened(old(View()), stateReadable, ledgerReadable), Cases(le, jobs));
              View() == Closed(r) && done == !r.dead
      ensures done ==> |dispatches| == |old(dispatches)| + acted
    {
      var consumed := if stateReadable then state else [];
      var open := if ledgerReadable then openRepairs else map[];
      ghost var r0 := Opened(View(), stateReadable, ledgerReadable);
      ghost var cs := Cases(le, jobs);
      var n := 0;
      acted, done := 0, true;
      while n < |jobs| && done
        invariant 0 <= n <= |jobs|
        invariant After(r0, cs[..n]) == Run(consumed, open, View(), !done)
        invariant done ==> |dispatches| == |old(dispatches)| + acted
      {
        AfterSnoc(r0, cs, n);
        var c := CaseOf(le, jobs[n]);
        n := n + 1;
        if c.dies {
          done := false;
          continue;
        }
        if c.nature.NoTask? || c.nature.id in consumed { continue; }
        if c.nature.NoRepair? || (c.nature.Repair? && c.nature.key in open) {
          consumed := consumed + [c.nature.id];
          continue;
        }
        if c.nature.Unkeyed? {
          done := false;
          continue;
        }
        if c.fate.Refused? { continue; }
        dispatches := dispatches + [Dispatch(c.nature.key, c.nature.id)];
        if c.fate.DiesUnrecorded? {
          done := false;
          continue;
        }
        open := open[c.nature.key := c.nature.id];
        openRepairs := open;
        if c.fate.DiesRecorded? {
          done := false;
          continue;
        }
        consumed := consumed + [c.nature.id];
        acted := acted + 1;
      }
      DeadStays(r0, cs, n);
      assert cs[..|jobs|] == cs;
      if done { state := Bounded(consumed); }
    }
  }

  lemma {:induction false} DeadStays(r: Run, cs: seq<Case>, n: nat)
    requires n <= |cs|
    ensures n == |cs| || After(r, cs[..n]).dead ==> After(r, cs) == After(r, cs[..n])
  {
    if n < |cs| {
      DeadStays(r, cs[..|cs| - 1], n);
      assert cs[..|cs| - 1][..n] == cs[..n];
    } else {
      assert cs[..n] == cs;
    }
  }

  // ------------------------------------------------------------------ at most one dispatch per key

  function KeySeq(ds: seq<Dispatch>): seq<Key> { seq(|ds|, i requires 0 <= i < |ds| => ds[i].key) }

  ghost predicate OncePerKey(d: Disk) { NoRepeats(KeySeq(d.dispatches)) }

  /** Every key ever dispatched is in the ledger `open`. */
  ghost predicate Covered(d: Disk, open: map<Key, Id>) { forall k :: k in KeySeq(d.dispatches) ==> k in open }

  lemma KeySeqSnoc(ds: seq<Dispatch>, d: Dispatch)
    ensures KeySeq(ds + [d]) == KeySeq(ds) + [d.key]
  {}

  lemma {:induction false} RunKeepsOnce(r: Run, cs: seq<Case>)
    requires OncePerKey(r.disk) && Covered(r.disk, r.open)
    ensures OncePerKey(After(r, cs).disk) && (After(r, cs).dead || Covered(After(r, cs).disk, After(r, cs).open))
  {
    if cs != [] {
      var q, c := After(r, cs[..|cs| - 1]), cs[|cs| - 1];
      RunKeepsOnce(r, cs[..|cs| - 1]);
      if c.nature.Repair? {
        KeySeqSnoc(q.disk.dispatches, Dispatch(c.nature.key, c.nature.id));
        NoRepeatsSnoc(KeySeq(q.disk.dispatches), c.nature.key);
      }
    }
  }

  /**
   * Whether every next run is safe can be told from the files alone: it is exactly when the ledger it
   * reads holds every key dispatched so far.
   */
  lemma SafeIffCovered(d: Disk, stateReadable: bool, ledgerReadable: bool)
    requires OncePerKey(d)
    ensures (forall cs :: OncePerKey(After(Opened(d, stateReadable, ledgerReadable), cs).disk))
        <==> Covered(d, if ledgerReadable then d.open else map[])
  {
    var r := Opened(d, stateReadable, ledgerReadable);
    if Covered(d, r.open) {
      forall cs ensures OncePerKey(After(r, cs).disk) { RunKeepsOnce(r, cs); }
    } else {
      var k :| k in KeySeq(d.dispatches) && k !in r.open;
      var id := FreshId(r.consumed);
      var c := Case(Repair(id, k), false, Accepted);
      RepeatsNow(r, c);
    }
  }

  lemma RepeatsNow(r: Run, c: Case)
    requires c.nature.Repair? && !c.dies && c.fate.Accepted? && c.nature.id !in r.consumed && c.nature.key !in r.open
    requires !r.dead && c.nature.key in KeySeq(r.disk.dispatches)
    ensures !OncePerKey(After(r, [c]).disk)
  {
    assert [c][..0] == [] && After(r, [c]) == Next(r, c);
    KeySeqSnoc(r.disk.dispatches, Dispatch(c.nature.key, c.nature.id));
    NoRepeatsSnoc(KeySeq(r.disk.dispatches), c.nature.key);
  }

  lemma {:induction false} FreshId(ids: seq<Id>) returns (id: Id)
    ensures id !in ids && forall i :: i in ids ==> |i| < |id|
  {
    if ids == [] {
      id := "x";
    } else {
      var n := |ids| - 1;
      var shorter := FreshId(ids[..n]);
      id := shorter + ids[n] + "x";
      SplitLast(ids);
    }
  }

  /** The run dispatches case `i` and dies before it records it. */
  ghost predicate Lost(r: Run, cs: seq<Case>, i: int) {
    && 0 <= i < |cs| && cs[i].fate.DiesUnrecorded? && !cs[i].dies && cs[i].nature.Repair?
    && var q := After(r, cs[..i]); !q.dead && cs[i].nature.id !in q.consumed && cs[i].nature.key !in q.open
  }

  /** A run leaves the ledger complete unless it dies between an accepted dispatch and the ledger write. */
  lemma {:induction false} RunKeepsCoveredIff(r: Run, cs: seq<Case>)
    requires Covered(r.disk, r.open) && r.disk.open == r.open
    ensures Covered(After(r, cs).disk, After(r, cs).disk.open) <==> !exists i :: Lost(r, cs, i)
    ensures After(r, cs).disk.open == After(r, cs).open
    ensures !Covered(After(r, cs).disk, After(r, cs).disk.open) ==> After(r, cs).dead
  {
    if cs != [] {
      var n := |cs| - 1;
      var q, c := After(r, cs[..n]), cs[n];
      RunKeepsCoveredIff(r, cs[..n]);
      forall i | 0 <= i < n ensures Lost(r, cs[..n], i) <==> Lost(r, cs, i) { assert cs[..n][..i] == cs[..i]; }
      if c.nature.Repair? { CoveredStep(q, c); }
      assert Lost(r, cs, n) ==> !Covered(After(r, cs).disk, After(r, cs).disk.open);
    }
  }

  lemma CoveredStep(q: Run, c: Case)
    requires c.nature.Repair? && q.disk.open == q.open && (q.dead || Covered(q.disk, q.open))
    ensures !q.dead ==> (Covered(Next(q, c).disk, Next(q, c).disk.open) <==>
              !(c.fate.DiesUnrecorded? && !c.dies && c.nature.id !in q.consumed && c.nature.key !in q.open))
  {
    var ks := KeySeq(q.disk.dispatches);
    KeySeqSnoc(q.disk.dispatches, Dispatch(c.nature.key, c.nature.id));
    assert (ks + [c.nature.key])[|ks|] == c.nature.key;
    assert forall k :: k in ks + [c.nature.key] <==> k in ks || k == c.nature.key;
  }

  // ------------------------------------------------------------------ many runs

  datatype Session = Session(cases: seq<Case>, stateReadable: bool, ledgerReadable: bool)

  function Begun(d: Disk, s: Session): Run { Opened(d, s.stateReadable, s.ledgerReadable) }

  function DiskAfter(sessions: seq<Session>): Disk {
    if sessions == [] then EMPTY
    else
      var s := sessions[|sessions| - 1];
      Closed(After(Begun(DiskAfter(sessions[..|sessions| - 1]), s), s.cases))
  }

  /** No session dies between a dispatch and its record, and the ledger can always be read. */
  ghost predicate Recording(sessions: seq<Session>) {
    forall n :: 0 <= n < |sessions| ==>
      sessions[n].ledgerReadable && !exists i :: Lost(Begun(DiskAfter(sessions[..n]), sessions[n]), sessions[n].cases, i)
  }

  /**
   * Each key is dispatched at most once over any number of runs, whatever they crash on, whatever the
   * graph answers, and although the consumed list is lost, unreadable or cut to its last 500 ids.
   */
  lemma {:induction false} AlwaysOncePerKey(sessions: seq<Session>)
    requires Recording(sessions)
    ensures OncePerKey(DiskAfter(sessions)) && Covered(DiskAfter(sessions), DiskAfter(sessions).open)
  {
    if sessions != [] {
      var n := |sessions| - 1;
      assert forall m :: 0 <= m < n ==> sessions[..n][..m] == sessions[..m];
      AlwaysOncePerKey(sessions[..n]);
      var r := Begun(DiskAfter(sessions[..n]), sessions[n]);
      RunKeepsOnce(r, sessions[n].cases);
      RunKeepsCoveredIff(r, sessions[n].cases);
    }
  }

  // ------------------------------------------------------------------ stable tasks

  /** A task's content and its standard's violations do not change: its id fixes its key (None: no repair). */
  ghost predicate Stable(key: Id -> Option<Key>, cs: seq<Case>) {
    forall c :: c in cs && !c.nature.NoTask? ==>
      match c.nature
      case NoRepair(id) => key(id) == None
      case Unkeyed(id) => key(id).Some?
      case Repair(id, k) => key(id) == Some(k)
  }

  ghost predicate Excused(key: Id -> Option<Key>, ids: seq<Id>, open: map<Key, Id>) {
    forall id :: id in ids && key(id).Some? ==> key(id).value in open
  }

  ghost predicate DispatchedAsKeyed(key: Id -> Option<Key>, ds: seq<Dispatch>) {
    forall d :: d in ds ==> key(d.id) == Some(d.key)
  }

  ghost predicate RunFaithful(key: Id -> Option<Key>, r: Run) {
    r.open == r.disk.open && Excused(key, r.consumed, r.open) && Excused(key, r.disk.consumed, r.open)
    && DispatchedAsKeyed(key, r.disk.dispatches)
  }

  lemma ExcusedSnoc(key: Id -> Option<Key>, ids: seq<Id>, open: map<Key, Id>, id: Id)
    requires Excused(key, ids, open) && (key(id).Some? ==> key(id).value in open)
    ensures Excused(key, ids + [id], open)
  {}

  lemma ExcusedMore(key: Id -> Option<Key>, ids: seq<Id>, open: map<Key, Id>, more: map<Key, Id>)
    requires Excused(key, ids, open) && open.Keys <= more.Keys
    ensures Excused(key, ids, more)
  {}

  lemma FaithfulStep(key: Id -> Option<Key>, r: Run, c: Case)
    requires RunFaithful(key, r) && Stable(key, [c])
    ensures RunFaithful(key, Next(r, c)) && r.open.Keys <= Next(r, c).open.Keys
  {
    assert c in [c];
    if !c.nature.NoTask? && !c.nature.Unkeyed? {
      var id := c.nature.id;
      if c.nature.Repair? && c.nature.key !in r.open {
        var more := r.open[c.nature.key := id];
        ExcusedMore(key, r.consumed, r.open, more);
        ExcusedMore(key, r.disk.consumed, r.open, more);
        ExcusedSnoc(key, r.consumed, more, id);
      } else {
        ExcusedSnoc(key, r.consumed, r.open, id);
      }
    }
  }

  lemma {:induction false} FaithfulRun(key: Id -> Option<Key>, r: Run, cs: seq<Case>)
    requires RunFaithful(key, r) && Stable(key, cs)
    ensures RunFaithful(key, After(r, cs)) && r.open.Keys <= After(r, cs).open.Keys
  {
    if cs != [] {
      var n := |cs| - 1;
      FaithfulRun(key, r, cs[..n]);
      assert cs[n] in cs;
      FaithfulStep(key, After(r, cs[..n]), cs[n]);
    }
  }

  ghost predicate DiskFaithful(key: Id -> Option<Key>, d: Disk) {
    Excused(key, d.consumed, d.open) && DispatchedAsKeyed(key, d.dispatches)
  }

  /**
   * A consumed task is no repair, or its key is open: a failed dispatch never counts as done. And what
   * was dispatched for a task went out under the task's own key.
   */
  lemma {:induction false} ConsumedMeansOpen(key: Id -> Option<Key>, sessions: seq<Session>)
    requires forall s :: s in sessions ==> s.ledgerReadable && Stable(key, s.cases)
    ensures DiskFaithful(key, DiskAfter(sessions))
  {
    if sessions != [] {
      var n := |sessions| - 1;
      ConsumedMeansOpen(key, sessions[..n]);
      assert sessions[n] in sessions;
      var r := Begun(DiskAfter(sessions[..n]), sessions[n]);
      FaithfulRun(key, r, sessions[n].cases);
      ClosedFaithful(key, After(r, sessions[n].cases));
    }
  }

  lemma ClosedFaithful(key: Id -> Option<Key>, r: Run)
    requires RunFaithful(key, r)
    ensures DiskFaithful(key, Closed(r))
  {
    assert forall id :: id in Bounded(r.consumed) ==> id in r.consumed;
  }

  ghost predicate OncePerTask(d: Disk) {
    forall i, j :: 0 <= i < j < |d.dispatches| ==> d.dispatches[i].id != d.dispatches[j].id
  }

  /** With stable tasks, no task is dispatched twice. */
  lemma AlwaysOncePerTask(key: Id -> Option<Key>, sessions: seq<Session>)
    requires Recording(sessions) && forall s :: s in sessions ==> Stable(key, s.cases)
    ensures OncePerTask(DiskAfter(sessions))
  {
    var ds := DiskAfter(sessions).dispatches;
    AlwaysOncePerKey(sessions);
    ConsumedMeansOpen(key, sessions);
    NoRepeatsIffDistinct(KeySeq(ds));
    forall i, j | 0 <= i < j < |ds| ensures ds[i].id != ds[j].id {
      assert ds[i] in ds && ds[j] in ds;
      assert KeySeq(ds)[i] != KeySeq(ds)[j];
    }
  }

  // ------------------------------------------------------------------ a clean run loses nothing

  /** Nothing fails: the process lives, the graph answers and the agent accepts. */
  predicate Clean(c: Case) { !c.dies && !c.nature.Unkeyed? && c.fate.Accepted? }

  function RepairKeys(cs: seq<Case>): set<Key> {
    set c | c in cs && c.nature.Repair? :: c.nature.key
  }

  lemma RepairKeysSnoc(cs: seq<Case>, c: Case)
    ensures RepairKeys(cs + [c]) == RepairKeys(cs) + if c.nature.Repair? then {c.nature.key} else {}
  {
    assert forall x :: x in cs + [c] <==> x in cs || x == c;
    assert c in cs + [c];
  }

  /** After a clean run the open keys are those open before and those of every repair task in the queue. */
  lemma {:induction false} CleanRunOpens(key: Id -> Option<Key>, r: Run, cs: seq<Case>)
    requires RunFaithful(key, r) && !r.dead && Stable(key, cs) && forall c :: c in cs ==> Clean(c)
    ensures !After(r, cs).dead && After(r, cs).open.Keys == r.open.Keys + RepairKeys(cs)
    ensures forall c :: c in cs && !c.nature.NoTask? ==> c.nature.id in After(r, cs).consumed
  {
    if cs != [] {
      var n := |cs| - 1;
      assert cs[n] in cs && cs == cs[..n] + [cs[n]];
      CleanRunOpens(key, r, cs[..n]);
      FaithfulRun(key, r, cs[..n]);
      RepairKeysSnoc(cs[..n], cs[n]);
    }
  }

  /** Whatever went wrong before, one clean run leaves every repair task of the queue with its key open. */
  lemma CleanRunLosesNothing(key: Id -> Option<Key>, sessions: seq<Session>, last: Session)
    requires forall s :: s in sessions + [last] ==> s.ledgerReadable && Stable(key, s.cases)
    requires forall c :: c in last.cases ==> Clean(c)
    ensures DiskAfter(sessions + [last]).open.Keys == DiskAfter(sessions).open.Keys + RepairKeys(last.cases)
  {
    assert (sessions + [last])[..|sessions|] == sessions && last in sessions + [last];
    assert forall s :: s in sessions ==> s in sessions + [last];
    ConsumedMeansOpen(key, sessions);
    var r := Begun(DiskAfter(sessions), last);
    CleanRunOpens(key, r, last.cases);
    FaithfulRun(key, r, last.cases);
  }

  // ------------------------------------------------------------------ where at-most-once ends

  lemma TwoSessions(s: Session, t: Session)
    requires |s.cases| == 1 && |t.cases| == 1
    ensures DiskAfter([s, t]) == Closed(Next(Begun(Closed(Next(Begun(EMPTY, s), s.cases[0])), t), t.cases[0]))
  {
    OneCase(Begun(EMPTY, s), s.cases);
    assert [s][..0] == [];
    assert DiskAfter([s]) == Closed(After(Begun(DiskAfter([]), s), s.cases));
    assert [s, t][..1] == [s];
    OneCase(Begun(DiskAfter([s]), t), t.cases);
  }

  lemma OneCase(r: Run, cs: seq<Case>)
    requires |cs| == 1
    ensures After(r, cs) == Next(r, cs[0])
  {
    assert cs[..0] == [];
    assert After(r, []) == r;
  }

  /** A death between the accepted dispatch and the ledger write sends the repair out again. */
  lemma UnrecordedRepeats(id: Id, key: Key)
    ensures var s := Session([Case(Repair(id, key), false, DiesUnrecorded)], true, true);
            var t := Session([Case(Repair(id, key), false, Accepted)], true, true);
            DiskAfter([s, t]).dispatches == [Dispatch(key, id), Dispatch(key, id)]
  {
    var s := Session([Case(Repair(id, key), false, DiesUnrecorded)], true, true);
    var t := Session([Case(Repair(id, key), false, Accepted)], true, true);
    TwoSessions(s, t);
  }

  /** The key follows the requirement list: change the list and a task lost by a death goes out twice. */
  lemma ChangedRequirementsRepeat(id: Id, key: Key, other: Key)
    requires key != other
    ensures var s := Session([Case(Repair(id, key), false, DiesRecorded)], true, true);
            var t := Session([Case(Repair(id, other), false, Accepted)], true, true);
            !OncePerTask(DiskAfter([s, t])) && OncePerKey(DiskAfter([s, t]))
  {
    var s := Session([Case(Repair(id, key), false, DiesRecorded)], true, true);
    var t := Session([Case(Repair(id, other), false, Accepted)], true, true);
    TwoSessions(s, t);
    var ds := DiskAfter([s, t]).dispatches;
    assert ds == [Dispatch(key, id), Dispatch(other, id)];
    NoRepeatsIffDistinct(KeySeq(ds));
  }
}
