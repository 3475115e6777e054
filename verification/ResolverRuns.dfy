/**
 * What runs of the forecast resolver add up to: what one run makes final, what any sequence of runs does,
 * interrupted, blind to its ledger or dying in mid-append, and when a forecast is resolved twice.
 */
module ResolverRuns {
  import opened Values
  import opened Resolver

  // ------------------------------------------------------------------ what a run may add

  lemma {:induction false} LedgersGrow(r: Run, cs: seq<Case>)
    ensures r.attempts <= After(r, cs).attempts && r.file <= After(r, cs).file && r.seen <= After(r, cs).seen
    ensures |After(r, cs).attempts| + |After(r, cs).file| <= |r.attempts| + |r.file| + |cs|
  {
    if cs != [] { LedgersGrow(r, cs[..|cs| - 1]); }
  }

  /** A record the run wrote is the outcome of a case it reached, whose key was not final. */
  lemma {:induction false} FinalsAreEarned(r: Run, cs: seq<Case>, k: nat) returns (i: nat)
    requires |r.file| <= k < |After(r, cs).file|
    ensures i < |cs| && cs[i].outcome == Resolved(After(r, cs).file[k].record)
    ensures !cs[i].fate.Dies? && After(r, cs).file[k].ending == EndingOf(cs[i].fate)
    ensures !After(r, cs[..i]).dead && cs[i].key.value !in After(r, cs[..i]).seen
  {
    var n := |cs| - 1;
    if k < |After(r, cs[..n]).file| {
      i := FinalsAreEarned(r, cs[..n], k);
      assert cs[..n][..i] == cs[..i];
    } else {
      i := n;
    }
  }

  lemma {:induction false} StaysDead(r: Run, cs: seq<Case>)
    ensures r.dead ==> After(r, cs).dead
  {
    if cs != [] { StaysDead(r, cs[..|cs| - 1]); }
  }

  // ------------------------------------------------------------------ how far a run gets, told from its inputs

  predicate Resolves(c: Case, key: Key) { c.outcome.Resolved? && c.key == Some(key) }

  /** The key of case `j` is among the known ones, or an earlier case resolves it. */
  ghost predicate Known(known: iset<Key>, cs: seq<Case>, j: int)
    requires 0 <= j < |cs|
  {
    cs[j].key.Some? && (cs[j].key.value in known || exists k :: 0 <= k < j && Resolves(cs[k], cs[j].key.value))
  }

  /** Nothing kills the run before case `i`: no death, and no fatal line but those it skips as known. */
  ghost predicate GetsTo(known: iset<Key>, cs: seq<Case>, i: int) {
    0 <= i <= |cs| && forall j :: 0 <= j < i ==> cs[j].fate.Lives? && (cs[j].outcome.Fatal? ==> Known(known, cs, j))
  }

  /** The run gets to case `i`, which resolves `key`, and the record is written in full or is there already. */
  ghost predicate Settles(known: iset<Key>, cs: seq<Case>, i: int, key: Key) {
    0 <= i < |cs| && GetsTo(known, cs, i) && Resolves(cs[i], key) && (cs[i].fate.Lives? || cs[i].fate.Cuts?)
  }

  /** The run gets to case `i` and writes to the final ledger there. */
  ghost predicate Writes(known: iset<Key>, cs: seq<Case>, i: int) {
    0 <= i < |cs| && GetsTo(known, cs, i) && cs[i].outcome.Resolved? && !cs[i].fate.Dies? && !Known(known, cs, i)
  }

  lemma FrontAlike(known: iset<Key>, cs: seq<Case>, n: nat, i: int)
    requires i <= n <= |cs|
    ensures GetsTo(known, cs[..n], i) <==> GetsTo(known, cs, i)
    ensures i < n ==> (Writes(known, cs[..n], i) <==> Writes(known, cs, i))
    ensures i < n ==> forall key :: Settles(known, cs[..n], i, key) <==> Settles(known, cs, i, key)
  {
    forall j | 0 <= j < n ensures Known(known, cs[..n], j) <==> Known(known, cs, j) {
      assert forall k :: 0 <= k < j ==> cs[..n][k] == cs[k];
    }
  }

  /** The known keys are those the run holds at its start. */
  ghost predicate Holds(r: Run, known: iset<Key>) { !r.dead && forall key :: key in known <==> key in r.seen }

  /** Where a living run stands, a key counts as known exactly when the run holds it. */
  lemma KnownIffSeen(r: Run, cs: seq<Case>, known: iset<Key>, n: nat)
    requires n < |cs| && cs[n].key.Some? && GetsTo(known, cs, n)
    requires forall key :: key in After(r, cs[..n]).seen <==> key in known || exists i :: Settles(known, cs[..n], i, key)
    ensures Known(known, cs, n) <==> cs[n].key.value in After(r, cs[..n]).seen
  {
    var key := cs[n].key.value;
    forall i | 0 <= i < n ensures Settles(known, cs[..n], i, key) <==> Resolves(cs[i], key) {
      FrontAlike(known, cs, n, i);
    }
  }

  /**
   * The run function told from the inputs: it lives through the cases exactly when it gets to their end, and
   * the keys it holds are the known ones and those it settles.
   */
  lemma {:induction false} RunIff(r: Run, cs: seq<Case>, known: iset<Key>)
    requires Holds(r, known)
    ensures !After(r, cs).dead <==> GetsTo(known, cs, |cs|)
    ensures forall key :: key in After(r, cs).seen <==> key in known || exists i :: Settles(known, cs, i, key)
  {
    if cs != [] {
      var n := |cs| - 1;
      RunIff(r, cs[..n], known);
      FrontAlike(known, cs, n, n);
      if GetsTo(known, cs, n) && cs[n].key.Some? { KnownIffSeen(r, cs, known, n); }
      forall key ensures key in After(r, cs).seen <==> key in known || exists i :: Settles(known, cs, i, key) {
        SettlesSnoc(known, cs, key);
      }
    }
  }

  lemma SettlesSnoc(known: iset<Key>, cs: seq<Case>, key: Key)
    requires cs != []
    ensures var n := |cs| - 1;
            (exists i :: Settles(known, cs, i, key)) <==>
              Settles(known, cs, n, key) || exists i :: Settles(known, cs[..n], i, key)
  {
    var n := |cs| - 1;
    forall i | i < n ensures Settles(known, cs[..n], i, key) <==> Settles(known, cs, i, key) {
      if 0 <= i { FrontAlike(known, cs, n, i); }
    }
  }

  /** Case `n` of a living run writes exactly when the ledger grows there. */
  lemma WritesHere(r: Run, cs: seq<Case>, known: iset<Key>)
    requires Holds(r, known) && cs != []
    ensures var n := |cs| - 1;
            After(r, cs).file
            == After(r, cs[..n]).file
               + if Writes(known, cs, n) then [Written(cs[n].outcome.resolution, EndingOf(cs[n].fate))] else []
  {
    var n := |cs| - 1;
    RunIff(r, cs[..n], known);
    FrontAlike(known, cs, n, n);
    if GetsTo(known, cs, n) && cs[n].key.Some? { KnownIffSeen(r, cs, known, n); }
  }

  /**
   * What a run leaves of a sound ledger, told from the inputs: it stays sound exactly when no write is torn
   * and nothing is written behind a missing line end; and it ends with a line end unless one was cut off.
   */
  lemma {:induction false} LedgerIff(r: Run, cs: seq<Case>, known: iset<Key>)
    requires Holds(r, known)
    ensures Sound(After(r, cs).file) <==>
              Sound(r.file) && forall i :: Writes(known, cs, i) ==> !cs[i].fate.Tears? && EndsWhole(r.file)
    ensures EndsWhole(After(r, cs).file) <==>
              (forall i :: Writes(known, cs, i) ==> cs[i].fate.Lives?)
              && (EndsWhole(r.file) || exists i :: Writes(known, cs, i))
  {
    if cs != [] {
      var n := |cs| - 1;
      LedgerIff(r, cs[..n], known);
      WritesHere(r, cs, known);
      forall i | i < n ensures Writes(known, cs[..n], i) <==> Writes(known, cs, i) {
        if 0 <= i { FrontAlike(known, cs, n, i); }
      }
      if Writes(known, cs, n) {
        SoundSnoc(After(r, cs[..n]).file, Written(cs[n].outcome.resolution, EndingOf(cs[n].fate)));
        assert forall i :: Writes(known, cs, i) && i < n ==> cs[i].fate.Lives?;
      }
    }
  }

  // ------------------------------------------------------------------ at most once

  lemma KeySeqSnoc(finals: seq<Resolution>, x: Resolution)
    ensures KeySeq(finals + [x]) == KeySeq(finals) + [x.key] && KeysOf(finals + [x]) == KeysOf(finals) + {x.key}
  {}

  lemma KeySeqMembers(finals: seq<Resolution>, key: Key)
    ensures key in KeySeq(finals) <==> key in KeysOf(finals)
  {
    if key in KeysOf(finals) {
      var r :| r in finals && r.key == key;
      var i :| 0 <= i < |finals| && finals[i] == r;
      assert KeySeq(finals)[i] == key;
    }
  }

  /** One step's part of the final records: one more, with a key the run did not hold, or none. */
  lemma FinalStep(q: Run, c: Case)
    ensures (Next(q, c).Finals() == q.Finals() && Next(q, c).seen == q.seen)
            || (c.outcome.Resolved? && c.key == Some(c.outcome.resolution.key)
                && Next(q, c).Finals() == q.Finals() + [c.outcome.resolution]
                && c.key.value !in q.seen && Next(q, c).seen == q.seen + {c.key.value})
  {
    if c.outcome.Resolved? { RecordedSnoc(q.file, Written(c.outcome.resolution, EndingOf(c.fate))); }
  }

  lemma {:induction false} FinalKeys(r: Run, cs: seq<Case>)
    ensures KeysOf(After(r, cs).Finals()) == KeysOf(r.Finals()) + (After(r, cs).seen - r.seen)
  {
    if cs != [] {
      var n := |cs| - 1;
      var q := After(r, cs[..n]);
      FinalKeys(r, cs[..n]);
      LedgersGrow(r, cs[..n]);
      FinalStep(q, cs[n]);
      if cs[n].outcome.Resolved? { KeySeqSnoc(q.Finals(), cs[n].outcome.resolution); }
    }
  }

  /** No two records share a key. Sealed, to be used whole. */
  ghost predicate OncePerKey(finals: seq<Resolution>) {
    forall mark {:trigger Unsealed(mark)} :: Unsealed(mark) ==> NoRepeats(KeySeq(finals))
  }

  /** No key is recorded twice unless a key final before, but not read back, is earned again. */
  lemma {:induction false} RunOnceIff(r: Run, cs: seq<Case>)
    requires OncePerKey(r.Finals())
    ensures OncePerKey(After(r, cs).Finals()) <==> KeysOf(r.Finals()) * After(r, cs).seen <= r.seen
  {
    assert Unsealed(true);
    if cs != [] {
      var n := |cs| - 1;
      var q := After(r, cs[..n]);
      RunOnceIff(r, cs[..n]);
      FinalKeys(r, cs[..n]);
      LedgersGrow(r, cs[..n]);
      FinalStep(q, cs[n]);
      if cs[n].outcome.Resolved? {
        var x := cs[n].outcome.resolution;
        KeySeqSnoc(q.Finals(), x);
        KeySeqMembers(q.Finals(), x.key);
        NoRepeatsSnoc(KeySeq(q.Finals()), x.key);
      }
    }
  }

  /** The keys a run knows at its start. */
  ghost function Start(r: Run): iset<Key> { iset key: Key | key in r.seen }

  /** From nothing known, the cases settle a key that the file already records. */
  ghost predicate Clash(file: seq<Written>, cs: seq<Case>) {
    exists i, key :: Settles(iset{}, cs, i, key) && key in KeysOf(Recorded(file))
  }

  /**
   * Each key resolves at most once. A run keeps that exactly when it could read the final ledger, or
   * settles no key that is already there.
   */
  lemma AtMostOnceIff(attempts: seq<Attempt>, file: seq<Written>, readable: bool, cs: seq<Case>)
    requires OncePerKey(Recorded(file))
    ensures var r := Opened(attempts, file, readable);
            OncePerKey(After(r, cs).Finals()) <==>
              (readable && Sound(file)) || !Clash(file, cs)
  {
    var r := Opened(attempts, file, readable);
    LoadedIff(file);
    RunOnceIff(r, cs);
    if !readable || !Sound(file) {
      RunIff(r, cs, iset{});
      var before, now := KeysOf(Recorded(file)), After(r, cs).seen;
      assert r.Finals() == Recorded(file) && r.seen == {};
      if key :| key in before && key in now {
        assert key in before * now;
      } else {
        assert before * now == {};
      }
    }
  }

  /** The earlier attempts never gate: they play no part in what is resolved. */
  lemma {:induction false} AttemptsNeverGate(a: Run, b: Run, cs: seq<Case>)
    requires a == b.(attempts := a.attempts)
    ensures After(a, cs) == After(b, cs).(attempts := After(a, cs).attempts)
  {
    if cs != [] { AttemptsNeverGate(a, b, cs[..|cs| - 1]); }
  }

  /** The process lives through the case, and the case does not end the run. */
  predicate Harmless(c: Case) { c.fate.Lives? && !c.outcome.Fatal? }

  /**
   * A clean run, after any history, makes final the key of every forecast it can resolve.
   * Nothing an earlier run did, failed to do or recorded stands in the way.
   */
  lemma CleanRunResolves(attempts: seq<Attempt>, file: seq<Written>, readable: bool, cs: seq<Case>, key: Key)
    requires forall c :: c in cs ==> Harmless(c)
    ensures key in KeysOf(After(Opened(attempts, file, readable), cs).Finals()) <==>
              key in KeysOf(Recorded(file)) || exists i :: 0 <= i < |cs| && Resolves(cs[i], key)
  {
    var r := Opened(attempts, file, readable);
    LoadedIff(file);
    RunIff(r, cs, Start(r));
    FinalKeys(r, cs);
    assert forall i :: 0 <= i < |cs| ==> Harmless(cs[i]);
    forall i ensures Settles(Start(r), cs, i, key) <==> 0 <= i < |cs| && Resolves(cs[i], key) {}
  }

  /** A fatal line strands every forecast behind it, however often the run is repeated. */
  lemma {:induction false} FatalStrands(r: Run, c: Case, cs: seq<Case>)
    requires c.outcome.Fatal? && (c.key.None? || c.key.value !in r.seen)
    ensures After(r, [c] + cs).file == r.file && After(r, [c] + cs).attempts == r.attempts
  {
    assert ([c] + cs)[..1] == [c] && [c][..0] == [];
    assert After(r, [c]) == Next(r, c);
    DeadStays(r, [c] + cs, 1);
  }

  /** A null target does that: validation reads the aggregation of a target it has not looked at. */
  lemma NullTargetIsFatal(f: Forecast, turn: Turn)
    requires MissingFields(f) == [] && "fc_" <= f.id.value
    requires f.issued.value.time.Some? && f.start.value.time.Some? && f.end.value.time.Some?
    requires f.issued.value.time.value <= f.start.value.time.value && f.end.value.time.value <= turn.now
    ensures f.target.value.NullTarget? ==> CaseOf(Job(Some(f), turn)).outcome.Fatal?
  {}

  // ------------------------------------------------------------------ interrupted and repeated runs

  /** A second run over what an interrupted one left: step by step, it only skips or catches up. */
  lemma {:induction false} CatchUp(q0: Run, cs: seq<Case>, k: nat, n: nat, r0: Run)
    requires k <= |cs| && n <= |cs| && !After(q0, cs[..k]).dead
    requires r0.file == After(q0, cs[..k]).file && r0.seen == After(q0, cs[..k]).seen && !r0.dead
    ensures var r := After(r0, cs[..n]);
            if n <= k then r.file == r0.file && r.seen == r0.seen && !r.dead
            else r.file == After(q0, cs[..n]).file && r.seen == After(q0, cs[..n]).seen
                 && r.dead == After(q0, cs[..n]).dead
  {
    if n > 0 {
      CatchUp(q0, cs, k, n - 1, r0);
      assert cs[..n][..n - 1] == cs[..n - 1];
      if n <= k { EarlierSeen(q0, cs, n, k); }
    }
  }

  lemma CaughtUp(q0: Run, cs: seq<Case>, k: nat, r0: Run)
    requires k <= |cs| && !After(q0, cs[..k]).dead
    requires r0.file == After(q0, cs[..k]).file && r0.seen == After(q0, cs[..k]).seen && !r0.dead
    ensures After(r0, cs).file == After(q0, cs).file
  {
    assert cs[..|cs|] == cs;
    CatchUp(q0, cs, k, |cs|, r0);
  }

  /** A case that a living run has passed is, seen again, skipped, still unresolvable or already final. */
  lemma EarlierSeen(q0: Run, cs: seq<Case>, n: nat, k: nat)
    requires 0 < n <= k <= |cs| && !After(q0, cs[..k]).dead
    ensures var c, seen := cs[n - 1], After(q0, cs[..k]).seen;
            c.fate.Lives? && ((c.key.Some? && c.key.value in seen) || c.outcome.Skipped? || c.outcome.Attempted?)
  {
    assert cs[..n][..n - 1] == cs[..n - 1] && cs[..k][..n] == cs[..n];
    Composes(q0, cs[..k], n);
    LedgersGrow(After(q0, cs[..n]), cs[..k][n..]);
    StaysDead(After(q0, cs[..n]), cs[..k][n..]);
  }

  lemma {:induction false} Composes(r: Run, cs: seq<Case>, n: nat)
    requires n <= |cs|
    ensures After(r, cs) == After(After(r, cs[..n]), cs[n..])
  {
    if n < |cs| {
      Composes(r, cs[..|cs| - 1], n);
      assert cs[..|cs| - 1][..n] == cs[..n] && cs[..|cs| - 1][n..] == cs[n..][..|cs[n..]| - 1];
    } else {
      assert cs[..n] == cs;
    }
  }

  lemma SoundPrefix(file: seq<Written>, more: seq<Written>)
    requires file <= more && Sound(more)
    ensures Sound(file)
  {
    assert forall i :: 0 <= i < |file| ==> file[i] == more[i];
  }

  /** A run that reads the ledger holds its keys and those it adds. */
  lemma HeldAreFinal(attempts: seq<Attempt>, file: seq<Written>, cs: seq<Case>)
    requires Sound(file)
    ensures var r := After(Opened(attempts, file, true), cs);
            r.seen == KeysOf(Recorded(r.file))
  {
    LoadedIff(file);
    FinalKeys(Opened(attempts, file, true), cs);
    LedgersGrow(Opened(attempts, file, true), cs);
  }

  /**
   * Runs converge. Interrupt a run between two forecasts and repeat it on the same inputs: the final ledger
   * is, record for record, the one the uninterrupted run leaves, provided it still parses.
   * With k = |cs|, a rerun adds nothing.
   */
  lemma RerunConverges(attempts: seq<Attempt>, file: seq<Written>, cs: seq<Case>, k: nat)
    requires k <= |cs|
    requires !After(Opened(attempts, file, true), cs[..k]).dead
    requires Sound(After(Opened(attempts, file, true), cs[..k]).file)
    ensures var cut := After(Opened(attempts, file, true), cs[..k]);
            After(Opened(cut.attempts, cut.file, true), cs).file == After(Opened(attempts, file, true), cs).file
  {
    var q := Opened(attempts, file, true);
    var cut := After(q, cs[..k]);
    var again := Opened(cut.attempts, cut.file, true);
    assert again.seen == cut.seen by {
      LedgersGrow(q, cs[..k]);
      SoundPrefix(file, cut.file);
      HeldAreFinal(attempts, file, cs[..k]);
      LoadedIff(cut.file);
    }
    CaughtUp(q, cs, k, again);
  }

  // ------------------------------------------------------------------ once per forecast and rule version

  /** What the mechanism counts resolutions by. */
  function Pair(k: Key): (Option<string>, Option<string>) { (k.id, k.version) }

  ghost predicate OncePerPair(finals: seq<Resolution>) {
    forall a, b :: 0 <= a < b < |finals| ==> Pair(finals[a].key) != Pair(finals[b].key)
  }

  lemma OneKeyOneRecord(finals: seq<Resolution>, key: Key) returns (k: nat)
    requires key in KeysOf(finals)
    ensures k < |finals| && finals[k].key == key
  {
    var r :| r in finals && r.key == key;
    k :| 0 <= k < |finals| && finals[k] == r;
  }

  /** One record per pair: one per key, and no two keys that differ in the window's end alone. */
  lemma OncePerPairParts(finals: seq<Resolution>)
    ensures OncePerPair(finals) <==>
              OncePerKey(finals)
              && forall k, l :: k in KeysOf(finals) && l in KeysOf(finals) && Pair(k) == Pair(l) ==> k.end == l.end
  {
    var keys := KeySeq(finals);
    assert Unsealed(true);
    NoRepeatsIffDistinct(keys);
    if OncePerPair(finals) {
      forall k, l | k in KeysOf(finals) && l in KeysOf(finals) && Pair(k) == Pair(l) ensures k.end == l.end {
        var a := OneKeyOneRecord(finals, k);
        var b := OneKeyOneRecord(finals, l);
        assert a == b;
      }
      forall a, b | 0 <= a < b < |keys| ensures keys[a] != keys[b] {
        assert Pair(finals[a].key) != Pair(finals[b].key);
      }
    } else {
      var a, b :| 0 <= a < b < |finals| && Pair(finals[a].key) == Pair(finals[b].key);
      assert finals[a] in finals && finals[b] in finals;
      assert finals[a].key in KeysOf(finals) && finals[b].key in KeysOf(finals);
      assert keys[a] == finals[a].key && keys[b] == finals[b].key;
    }
  }

  // ------------------------------------------------------------------ many runs

  /** One run: its forecasts, and whether reading the final ledger succeeds. */
  datatype Session = Session(jobs: seq<Job>, readable: bool)

  /** The ledgers after a sequence of runs, from empty ones. */
  function Ledgers(sessions: seq<Session>): Run {
    if sessions == [] then Opened([], [], true)
    else
      var r, s := Ledgers(sessions[..|sessions| - 1]), sessions[|sessions| - 1];
      After(Opened(r.attempts, r.file, s.readable), Cases(s.jobs))
  }

  /** A session's run at its start. */
  function Begun(past: seq<Session>, s: Session): Run {
    var r := Ledgers(past);
    Opened(r.attempts, r.file, s.readable)
  }

  function Finals(sessions: seq<Session>): seq<Resolution> { Ledgers(sessions).Finals() }

  /** What sessions leave behind: the keys they earned, whether the file is spoilt, and its last line end cut off. */
  datatype Legacy = Legacy(keys: iset<Key>, broken: bool, cut: bool)

  /** The keys a session knows: none when reading fails or the file does not parse. */
  ghost function KnownTo(past: Legacy, s: Session): iset<Key> {
    if !s.readable || past.broken then iset{} else past.keys
  }

  ghost predicate Appends(known: iset<Key>, cs: seq<Case>) { exists i :: Writes(known, cs, i) }
  ghost predicate TearsOne(known: iset<Key>, cs: seq<Case>) { exists i :: Writes(known, cs, i) && cs[i].fate.Tears? }
  ghost predicate CutsOneShort(known: iset<Key>, cs: seq<Case>) { exists i :: Writes(known, cs, i) && !cs[i].fate.Lives? }

  /** The legacy, told from the sessions alone. */
  ghost function Left(sessions: seq<Session>): Legacy {
    if sessions == [] then Legacy(iset{}, false, false)
    else
      var n := |sessions| - 1;
      var past, cs := Left(sessions[..n]), Cases(sessions[n].jobs);
      var known := KnownTo(past, sessions[n]);
      Legacy(past.keys + (iset i, key | Settles(known, cs, i, key) :: key),
             past.broken || TearsOne(known, cs) || (past.cut && Appends(known, cs)),
             if Appends(known, cs) then CutsOneShort(known, cs) else past.cut)
  }

  /** The ledgers are as the legacy says. */
  ghost predicate Agree(sessions: seq<Session>) {
    && (Sound(Ledgers(sessions).file) <==> !Left(sessions).broken)
    && (EndsWhole(Ledgers(sessions).file) <==> !Left(sessions).cut)
    && forall key :: key in KeysOf(Finals(sessions)) <==> key in Left(sessions).keys
  }

  lemma {:induction false} LedgersIff(sessions: seq<Session>)
    ensures Agree(sessions)
  {
    if sessions != [] {
      LedgersIff(sessions[..|sessions| - 1]);
      SessionIff(sessions);
    }
  }

  lemma SessionIff(sessions: seq<Session>)
    requires sessions != [] && Agree(sessions[..|sessions| - 1])
    ensures Agree(sessions)
  {
    var n := |sessions| - 1;
    var past, s := sessions[..n], sessions[n];
    var r, cs, known := Begun(past, s), Cases(s.jobs), KnownTo(Left(past), s);
    LoadedIff(Ledgers(past).file);
    LedgerIff(r, cs, known);
    RunIff(r, cs, known);
    FinalKeys(r, cs);
  }

  // ------------------------------------------------------------------ the legacy, event by event

  /** Session `n` earns `key` at its case `i`. Sealed, to be used whole. */
  ghost predicate EarnedIn(sessions: seq<Session>, n: int, i: int, key: Key) {
    && 0 <= n < |sessions|
    && forall mark {:trigger Unsealed(mark)} :: Unsealed(mark) ==>
         Settles(KnownTo(Left(sessions[..n]), sessions[n]), Cases(sessions[n].jobs), i, key)
  }

  /** Session `n` appends to the final ledger at its case `i`, or dies over it. Sealed too. */
  ghost predicate WrittenIn(sessions: seq<Session>, n: int, i: int) {
    && 0 <= n < |sessions|
    && forall mark {:trigger Unsealed(mark)} :: Unsealed(mark) ==>
         Writes(KnownTo(Left(sessions[..n]), sessions[n]), Cases(sessions[n].jobs), i)
  }

  function FateAt(sessions: seq<Session>, n: int, i: int): Fate {
    if 0 <= n < |sessions| && 0 <= i < |sessions[n].jobs| then sessions[n].jobs[i].turn.fate else Lives
  }

  ghost predicate Earned(sessions: seq<Session>, key: Key) { exists n, i :: EarnedIn(sessions, n, i, key) }

  ghost predicate AppendsIn(sessions: seq<Session>, n: int) { exists i :: WrittenIn(sessions, n, i) }

  ghost predicate TearsIn(sessions: seq<Session>, n: int) {
    exists i :: WrittenIn(sessions, n, i) && FateAt(sessions, n, i).Tears?
  }

  ghost predicate CutsIn(sessions: seq<Session>, n: int) {
    exists i :: WrittenIn(sessions, n, i) && FateAt(sessions, n, i).Cuts?
  }

  ghost predicate AppendsAfter(sessions: seq<Session>, n: int) { exists m :: n < m && AppendsIn(sessions, m) }

  /** The append at (`n`, `i`) spoils the file: it is torn, or a later session appends behind its missing line end. */
  ghost predicate Breaks(sessions: seq<Session>, n: int, i: int) {
    WrittenIn(sessions, n, i)
    && (FateAt(sessions, n, i).Tears? || (FateAt(sessions, n, i).Cuts? && AppendsAfter(sessions, n)))
  }

  /** The append at (`n`, `i`) is the last one, and lacks its line end. */
  ghost predicate CutsOff(sessions: seq<Session>, n: int, i: int) {
    WrittenIn(sessions, n, i) && FateAt(sessions, n, i).Cuts? && !AppendsAfter(sessions, n)
  }

  lemma FrontEvents(sessions: seq<Session>, n: nat, m: int, i: int)
    requires n <= |sessions| && m < n
    ensures WrittenIn(sessions[..n], m, i) <==> WrittenIn(sessions, m, i)
    ensures forall key :: EarnedIn(sessions[..n], m, i, key) <==> EarnedIn(sessions, m, i, key)
    ensures FateAt(sessions[..n], m, i) == FateAt(sessions, m, i)
  {
    assert Unsealed(true);
    if 0 <= m { assert sessions[..n][..m] == sessions[..m] && sessions[..n][m] == sessions[m]; }
  }

  lemma EarnedSnoc(sessions: seq<Session>, key: Key)
    requires sessions != []
    ensures var n := |sessions| - 1;
            Earned(sessions, key) <==> Earned(sessions[..n], key) || exists i :: EarnedIn(sessions, n, i, key)
  {
    var n := |sessions| - 1;
    if m, i :| EarnedIn(sessions, m, i, key) && m < n { FrontEvents(sessions, n, m, i); }
    if m, i :| EarnedIn(sessions[..n], m, i, key) { FrontEvents(sessions, n, m, i); }
  }

  lemma AppendsSnoc(sessions: seq<Session>, m: int)
    requires sessions != [] && m < |sessions| - 1
    ensures var n := |sessions| - 1;
            AppendsAfter(sessions, m) <==> AppendsAfter(sessions[..n], m) || AppendsIn(sessions, n)
  {
    var n := |sessions| - 1;
    forall k | k < n ensures AppendsIn(sessions, k) <==> AppendsIn(sessions[..n], k) {
      forall i ensures WrittenIn(sessions[..n], k, i) <==> WrittenIn(sessions, k, i) { FrontEvents(sessions, n, k, i); }
    }
    if k :| m < k && AppendsIn(sessions, k) { assert k < n || k == n; }
    if k :| m < k && AppendsIn(sessions[..n], k) { assert k < n; }
  }

  lemma EventSnoc(sessions: seq<Session>, m: int, i: int)
    requires sessions != [] && m < |sessions| - 1
    ensures var n := |sessions| - 1;
            Breaks(sessions, m, i) <==>
              Breaks(sessions[..n], m, i)
              || (WrittenIn(sessions[..n], m, i) && FateAt(sessions[..n], m, i).Cuts? && AppendsIn(sessions, n))
    ensures var n := |sessions| - 1;
            CutsOff(sessions, m, i) <==> CutsOff(sessions[..n], m, i) && !AppendsIn(sessions, n)
  {
    FrontEvents(sessions, |sessions| - 1, m, i);
    AppendsSnoc(sessions, m);
  }

  lemma {:induction false} KeysIff(sessions: seq<Session>, key: Key)
    ensures key in Left(sessions).keys <==> Earned(sessions, key)
  {
    if sessions != [] {
      var n := |sessions| - 1;
      KeysIff(sessions[..n], key);
      EarnedSnoc(sessions, key);
      var known, cs := KnownTo(Left(sessions[..n]), sessions[n]), Cases(sessions[n].jobs);
      forall i ensures EarnedIn(sessions, n, i, key) <==> Settles(known, cs, i, key) { assert Unsealed(true); }
    }
  }

  ghost predicate Broken(sessions: seq<Session>) { exists n, i :: Breaks(sessions, n, i) }
  ghost predicate CutOff(sessions: seq<Session>) { exists n, i :: CutsOff(sessions, n, i) }

  lemma BrokenSnoc(sessions: seq<Session>)
    requires sessions != []
    ensures var n := |sessions| - 1;
            Broken(sessions) <==>
              Broken(sessions[..n])
              || TearsIn(sessions, n)
              || (CutOff(sessions[..n]) && AppendsIn(sessions, n))
  {
    var n := |sessions| - 1;
    var front := sessions[..n];
    if m, i :| Breaks(sessions, m, i) && m < n {
      EventSnoc(sessions, m, i);
      assert Breaks(front, m, i) || CutsOff(front, m, i);
    }
    if m, i :| Breaks(sessions, m, i) && n <= m { assert m == n && WrittenIn(sessions, n, i); }
    if m, i :| Breaks(front, m, i) {
      EventSnoc(sessions, m, i);
      assert Breaks(sessions, m, i);
    }
    if m, i :| CutsOff(front, m, i) && AppendsIn(sessions, n) {
      EventSnoc(sessions, m, i);
      assert Breaks(sessions, m, i);
    }
    if TearsIn(sessions, n) {
      var i :| WrittenIn(sessions, n, i) && FateAt(sessions, n, i).Tears?;
      assert Breaks(sessions, n, i);
    }
  }

  lemma CutOffSnoc(sessions: seq<Session>)
    requires sessions != []
    ensures var n := |sessions| - 1;
            CutOff(sessions) <==>
              if AppendsIn(sessions, n) then CutsIn(sessions, n)
              else CutOff(sessions[..n])
  {
    var n := |sessions| - 1;
    if m, i :| CutsOff(sessions, m, i) && m < n { EventSnoc(sessions, m, i); }
    if m, i :| CutsOff(sessions, m, i) && n <= m { assert m == n && WrittenIn(sessions, n, i); }
    if m, i :| CutsOff(sessions[..n], m, i) { EventSnoc(sessions, m, i); }
    if CutsIn(sessions, n) {
      var i :| WrittenIn(sessions, n, i) && FateAt(sessions, n, i).Cuts?;
      assert CutsOff(sessions, n, i);
    }
  }

  /** The last session's appends, the seals opened. */
  lemma LastAppends(sessions: seq<Session>)
    requires sessions != []
    ensures var n := |sessions| - 1;
            var known, cs := KnownTo(Left(sessions[..n]), sessions[n]), Cases(sessions[n].jobs);
            && (Appends(known, cs) <==> AppendsIn(sessions, n))
            && (TearsOne(known, cs) <==> TearsIn(sessions, n))
            && (CutsOneShort(known, cs) <==> TearsIn(sessions, n) || CutsIn(sessions, n))
  {
    var n := |sessions| - 1;
    var known, cs := KnownTo(Left(sessions[..n]), sessions[n]), Cases(sessions[n].jobs);
    SameAppends(sessions, n, known, cs);
  }

  lemma SameAppends(sessions: seq<Session>, n: nat, known: iset<Key>, cs: seq<Case>)
    requires n < |sessions| && cs == Cases(sessions[n].jobs)
    requires known == KnownTo(Left(sessions[..n]), sessions[n])
    ensures Appends(known, cs) <==> AppendsIn(sessions, n)
    ensures TearsOne(known, cs) <==> TearsIn(sessions, n)
    ensures CutsOneShort(known, cs) <==> TearsIn(sessions, n) || CutsIn(sessions, n)
  {
    forall i ensures WrittenIn(sessions, n, i) <==> Writes(known, cs, i) { assert Unsealed(true); }
    forall i | Writes(known, cs, i) ensures cs[i].fate == FateAt(sessions, n, i) && !cs[i].fate.Dies? {}
  }

  /** The file is spoilt exactly when some append broke it, and else its line end is off when the last one's is. */
  lemma {:induction false} SpoiltIff(sessions: seq<Session>)
    ensures Left(sessions).broken <==> Broken(sessions)
    ensures !Broken(sessions) ==> (Left(sessions).cut <==> CutOff(sessions))
  {
    if sessions != [] {
      var n := |sessions| - 1;
      SpoiltIff(sessions[..n]);
      BrokenSnoc(sessions);
      CutOffSnoc(sessions);
      LastAppends(sessions);
    }
  }

  // ------------------------------------------------------------------ over any sequence of runs

  lemma SoundIff(sessions: seq<Session>)
    ensures Sound(Ledgers(sessions).file) <==> !Broken(sessions)
  {
    LedgersIff(sessions);
    SpoiltIff(sessions);
  }

  /**
   * The final ledger parses exactly when no append was torn, and none stands behind a missing line end.
   * A process that dies in mid-append thus hides every final record from all later runs.
   */
  lemma LedgerParsesIff(sessions: seq<Session>)
    ensures Loaded(Ledgers(sessions).file) == if Broken(sessions) then [] else Finals(sessions)
    ensures (forall l :: l in Lines(Ledgers(sessions).file) ==> Parses(l)) <==> !Broken(sessions)
  {
    SoundIff(sessions);
    LoadedIff(Ledgers(sessions).file);
  }

  /** The final keys, over any sequence of runs and whatever they died of, are exactly the earned ones. */
  lemma FinalKeysAreEarned(sessions: seq<Session>, key: Key)
    ensures key in KeysOf(Finals(sessions)) <==> Earned(sessions, key)
  {
    LedgersIff(sessions);
    KeysIff(sessions, key);
  }

  /** Session `n` finds nothing in the final ledger: reading it fails, or an earlier append broke it. */
  ghost predicate Blind(sessions: seq<Session>, n: int) {
    0 <= n < |sessions| && (!sessions[n].readable || Broken(sessions[..n]))
  }

  /** Session `n`, blind, earns at its case `i` a key that an earlier session has earned. */
  ghost predicate Again(sessions: seq<Session>, n: int, i: int, key: Key) {
    Blind(sessions, n) && EarnedIn(sessions, n, i, key) && Earned(sessions[..n], key)
  }

  ghost predicate AgainIn(sessions: seq<Session>, n: int) { exists i, key :: Again(sessions, n, i, key) }

  lemma {:induction false} RepeatsStay(r: Run, cs: seq<Case>)
    ensures OncePerKey(After(r, cs).Finals()) ==> OncePerKey(r.Finals())
  {
    assert Unsealed(true);
    if cs != [] {
      var q, c := After(r, cs[..|cs| - 1]), cs[|cs| - 1];
      RepeatsStay(r, cs[..|cs| - 1]);
      FinalStep(q, c);
      if c.outcome.Resolved? {
        KeySeqSnoc(q.Finals(), c.outcome.resolution);
        NoRepeatsSnoc(KeySeq(q.Finals()), c.outcome.resolution.key);
      }
    }
  }

  /** What a session earns again, told by the ledger it starts from. */
  lemma AgainInIff(sessions: seq<Session>, n: nat)
    requires n < |sessions| && Blind(sessions, n)
    ensures AgainIn(sessions, n) <==> Clash(Ledgers(sessions[..n]).file, Cases(sessions[n].jobs))
  {
    SpoiltIff(sessions[..n]);
    forall i, key
      ensures Again(sessions, n, i, key)
              <==> Settles(iset{}, Cases(sessions[n].jobs), i, key) && key in KeysOf(Finals(sessions[..n]))
    {
      assert Unsealed(true);
      FinalKeysAreEarned(sessions[..n], key);
    }
  }

  /** The last session's part: on a ledger without repeats, it repeats none unless it does so blind. */
  lemma LastOnceIff(sessions: seq<Session>)
    requires sessions != [] && OncePerKey(Finals(sessions[..|sessions| - 1]))
    ensures OncePerKey(Finals(sessions)) <==> !AgainIn(sessions, |sessions| - 1)
  {
    var r, s := Ledgers(sessions[..|sessions| - 1]), sessions[|sessions| - 1];
    AtMostOnceIff(r.attempts, r.file, s.readable, Cases(s.jobs));
    SoundIff(sessions[..|sessions| - 1]);
    if Blind(sessions, |sessions| - 1) { AgainInIff(sessions, |sessions| - 1); }
  }

  lemma AgainFront(sessions: seq<Session>, n: nat, m: int)
    requires n <= |sessions| && m < n
    ensures AgainIn(sessions[..n], m) <==> AgainIn(sessions, m)
  {
    if 0 <= m { assert sessions[..n][..m] == sessions[..m] && sessions[..n][m] == sessions[m]; }
    forall i, key ensures Again(sessions[..n], m, i, key) <==> Again(sessions, m, i, key) { FrontEvents(sessions, n, m, i); }
  }

  lemma AgainSnoc(sessions: seq<Session>)
    requires sessions != []
    ensures var n := |sessions| - 1;
            (exists m :: AgainIn(sessions, m)) <==> (exists m :: AgainIn(sessions[..n], m)) || AgainIn(sessions, n)
  {
    var n := |sessions| - 1;
    if m :| AgainIn(sessions[..n], m) { AgainFront(sessions, n, m); }
    if m :| AgainIn(sessions, m) && m < n { AgainFront(sessions, n, m); }
    assert forall m :: AgainIn(sessions, m) ==> m <= n;
  }

  lemma OnceBefore(sessions: seq<Session>)
    requires sessions != [] && OncePerKey(Finals(sessions))
    ensures OncePerKey(Finals(sessions[..|sessions| - 1]))
  {
    RepeatsStay(Begun(sessions[..|sessions| - 1], sessions[|sessions| - 1]), Cases(sessions[|sessions| - 1].jobs));
  }

  /**
   * At most one resolution per key, over any sequence of runs and whatever the clocks, the data, the store and
   * the deaths did, if and only if no run that finds nothing in the final ledger earns a key earned before it.
   */
  lemma {:induction false} AlwaysAtMostOnceIff(sessions: seq<Session>)
    ensures OncePerKey(Finals(sessions)) <==> !exists n :: AgainIn(sessions, n)
  {
    if sessions != [] {
      var n := |sessions| - 1;
      AlwaysAtMostOnceIff(sessions[..n]);
      if OncePerKey(Finals(sessions)) { OnceBefore(sessions); }
      AgainSnoc(sessions);
      if OncePerKey(Finals(sessions[..n])) { LastOnceIff(sessions); }
    }
  }

  /**
   * Each forecast id and rule version is resolved at most once, over any sequence of runs, if and only if no
   * blind run earns a key again and no two earned keys differ in the window's end alone.
   */
  lemma AlwaysOncePerPairIff(sessions: seq<Session>)
    ensures OncePerPair(Finals(sessions)) <==>
              (!exists n :: AgainIn(sessions, n))
              && forall k, l :: Earned(sessions, k) && Earned(sessions, l) && Pair(k) == Pair(l) ==> k.end == l.end
  {
    AlwaysAtMostOnceIff(sessions);
    OncePerPairParts(Finals(sessions));
    forall k ensures k in KeysOf(Finals(sessions)) <==> Earned(sessions, k) { FinalKeysAreEarned(sessions, k); }
  }

  // ------------------------------------------------------------------ concrete cases

  function Sample(end: int): Forecast {
    Forecast(Some("fc_1"), Some("h"), Some("p"), Some(Date(0, Some(0))), Some(Date(0, Some(0))), Some(Date(end, Some(end))),
             Some(Target(Some("point"), None)), Some(Claim(Some("event"))), Some(H3P2), Some("s"), Some("m"),
             Some([Chance(Some(0.5), Baseline(0.5), NoThreshold)]))
  }

  function SampleJob(end: int, fate: Fate): Job {
    var o := Observation(PRICE_MIN, Some(1.0), 0, "");
    Job(Some(Sample(end)), Turn(9, Holding([o, o]), fate))
  }

  lemma SampleResolves(end: nat, fate: Fate)
    requires end < 9
    ensures Resolves(CaseOf(SampleJob(end, fate)), KeyOf(Sample(end))) && CaseOf(SampleJob(end, fate)).fate == fate
  {
    var f, o := Sample(end), Observation(PRICE_MIN, Some(1.0), 0, "");
    ValidIff(f);
    assert "fc_1"[..3] == "fc_";
    assert multiset([o, o])[o] == 2;
    assert OnlyRepeats(f, [o, o], o);
    DuplicatesMatterIff(f, [o, o]);
  }

  /** Two resolvable forecasts in one session: the first is earned, and so is the second unless it is torn. */
  lemma TwoJobs(a: Job, b: Job, ka: Key, kb: Key)
    requires Resolves(CaseOf(a), ka) && Resolves(CaseOf(b), kb) && ka != kb
    requires a.turn.fate.Lives? && !b.turn.fate.Dies?
    ensures var s := [Session([a, b], true)];
            EarnedIn(s, 0, 0, ka) && (b.turn.fate.Lives? ==> EarnedIn(s, 0, 1, kb)) && WrittenIn(s, 0, 1)
  {
    var cs := Cases([a, b]);
    assert cs[0] == CaseOf(a) && cs[1] == CaseOf(b);
    assert Left([Session([a, b], true)][..0]) == Legacy(iset{}, false, false);
    assert GetsTo(iset{}, cs, 0) && GetsTo(iset{}, cs, 1);
  }

  /** One forecast under two window ends is resolved twice in one clean run. */
  lemma ResolvedTwice()
    ensures !OncePerPair(Finals([Session([SampleJob(1, Lives), SampleJob(2, Lives)], true)]))
  {
    SampleResolves(1, Lives);
    SampleResolves(2, Lives);
    TwoJobs(SampleJob(1, Lives), SampleJob(2, Lives), KeyOf(Sample(1)), KeyOf(Sample(2)));
    AlwaysOncePerPairIff([Session([SampleJob(1, Lives), SampleJob(2, Lives)], true)]);
  }

  /** A session that comes second and blind, over a forecast the first has earned, resolves it again. */
  lemma SecondBlind(first: Session, second: Session, a: Job, key: Key)
    requires second.jobs == [a] && Resolves(CaseOf(a), key) && a.turn.fate.Lives?
    requires Earned([first], key) && (!second.readable || Broken([first]))
    ensures !OncePerKey(Finals([first, second]))
  {
    var s := [first, second];
    assert s[..1] == [first] && Cases([a])[0] == CaseOf(a);
    SpoiltIff([first]);
    assert GetsTo(iset{}, Cases([a]), 0);
    assert Settles(iset{}, Cases([a]), 0, key);
    assert EarnedIn(s, 1, 0, key);
    assert Again(s, 1, 0, key) && AgainIn(s, 1);
    AlwaysAtMostOnceIff(s);
  }

  /** A final ledger that cannot be read counts as empty: the same forecast is resolved again. */
  lemma UnreadableResolvesTwice()
    ensures var a, b := SampleJob(1, Lives), SampleJob(2, Lives);
            !OncePerKey(Finals([Session([a, b], true), Session([a], false)]))
  {
    SampleResolves(1, Lives);
    SampleResolves(2, Lives);
    var a, b := SampleJob(1, Lives), SampleJob(2, Lives);
    TwoJobs(a, b, KeyOf(Sample(1)), KeyOf(Sample(2)));
    SecondBlind(Session([a, b], true), Session([a], false), a, KeyOf(Sample(1)));
  }

  /** So does one whose last append was torn by a death: nothing failed but one process, in mid-line. */
  lemma TornResolvesTwice()
    ensures var a, b := SampleJob(1, Lives), SampleJob(2, Tears);
            !OncePerKey(Finals([Session([a, b], true), Session([a], true)]))
  {
    SampleResolves(1, Lives);
    SampleResolves(2, Tears);
    var a, b := SampleJob(1, Lives), SampleJob(2, Tears);
    TwoJobs(a, b, KeyOf(Sample(1)), KeyOf(Sample(2)));
    assert Breaks([Session([a, b], true)], 0, 1);
    SecondBlind(Session([a, b], true), Session([a], true), a, KeyOf(Sample(1)));
  }
}
