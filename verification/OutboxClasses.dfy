/** Which repair tasks count as the same repair, and that a clean run sends out one task for each. */
module OutboxClasses {
  import opened Values
  import opened Outbox
  import Sorting

  // ------------------------------------------------------------------ when two keys are equal

  /** The site a task is about: its payload's, else its subject, else a default. */
  predicate About(t: Line, site: string)
    requires t.Task?
  {
    t.site == Some(site) || (t.site.None? && t.subject == Some(site))
    || (t.site.None? && t.subject.None? && site == "unknown_site")
  }

  /** The standard version it names; none reads as the empty text. */
  predicate Names(t: Line, version: string)
    requires t.Task?
  {
    t.version == Some(version) || (t.version.None? && version == "")
  }

  /** How often a requirement that is more than information has the id. */
  function Count(reqs: seq<Requirement>, id: string): nat {
    if reqs == [] then 0
    else
      var n := |reqs| - 1;
      Count(reqs[..n], id) + if reqs[n].id == id && reqs[n].severity != "info" then 1 else 0
  }

  ghost predicate SameFailures(a: seq<Requirement>, b: seq<Requirement>) { forall id :: Count(a, id) == Count(b, id) }

  /** Ids that a comma can separate. */
  ghost predicate Separable(ids: seq<string>) { forall id :: id in ids ==> id != "" && ',' !in id }

  ghost predicate Plain(reqs: seq<Requirement>) { forall r :: r in reqs ==> r.id != "" && ',' !in r.id }

  lemma {:induction false} CountIs(reqs: seq<Requirement>, id: string)
    ensures multiset(Violated(reqs))[id] == Count(reqs, id)
  {
    if reqs != [] { CountIs(reqs[..|reqs| - 1], id); }
  }

  lemma {:induction false} ViolatedPlain(reqs: seq<Requirement>)
    requires Plain(reqs)
    ensures Separable(Violated(reqs))
  {
    if reqs != [] {
      SplitLast(reqs);
      ViolatedPlain(reqs[..|reqs| - 1]);
    }
  }

  lemma LastPart(a: string, x: string, b: string, y: string)
    requires a + "," + x == b + "," + y && ',' !in x && ',' !in y
    ensures a == b && x == y
  {
    var s, t := a + "," + x, b + "," + y;
    assert s[|a|] == ',' && t[|b|] == ',';
    assert forall k :: |a| < k < |s| ==> s[k] == x[k - |a| - 1] && s[k] in x;
    assert forall k :: |b| < k < |t| ==> t[k] == y[k - |b| - 1] && t[k] in y;
    assert |a| == |b|;
    assert a == s[..|a|] && b == t[..|b|] && x == s[|a| + 1..] && y == t[|b| + 1..];
  }

  lemma {:induction false} JoinedHasComma(ids: seq<string>)
    requires Separable(ids)
    ensures ids != [] ==> Joined(ids) != ""
    ensures |ids| == 1 ==> ',' !in Joined(ids)
    ensures |ids| >= 2 ==> ',' in Joined(ids)
  {
    if |ids| >= 2 {
      assert (Joined(ids[..|ids| - 1]) + "," + ids[|ids| - 1])[|Joined(ids[..|ids| - 1])|] == ',';
    } else if |ids| == 1 {
      assert ids[0] in ids;
    }
  }

  /** Separable ids can be told from their joined text. */
  lemma {:induction false} JoinedInjective(a: seq<string>, b: seq<string>)
    requires Separable(a) && Separable(b) && Joined(a) == Joined(b)
    ensures a == b
    decreases |a|
  {
    JoinedHasComma(a);
    JoinedHasComma(b);
    if |a| >= 2 && |b| >= 2 {
      var m, n := |a| - 1, |b| - 1;
      assert a[m] in a && b[n] in b;
      LastPart(Joined(a[..m]), a[m], Joined(b[..n]), b[n]);
      assert forall x :: x in a[..m] ==> x in a;
      assert forall x :: x in b[..n] ==> x in b;
      JoinedInjective(a[..m], b[..n]);
      SplitLast(a);
      SplitLast(b);
    }
  }

  /** What the graph is asked about: nothing for a task without a version. */
  function Asked(t: Line, reqs: seq<Requirement>): seq<Requirement>
    requires t.Task?
  {
    if t.version.None? || t.version == Some("") then [] else reqs
  }

  lemma KeyParts(le: (string, string) -> bool, t: Line, reqs: seq<Requirement>, site: string, version: string)
    requires t.Task? && About(t, site) && Names(t, version)
    ensures KeyOf(le, t, reqs) == Key(site, version, Joined(Sorting.Sort(le, Violated(Asked(t, reqs)))))
  {}

  lemma SortedPlain(le: (string, string) -> bool, reqs: seq<Requirement>)
    requires Plain(reqs)
    ensures Separable(Sorting.Sort(le, Violated(reqs)))
  {
    ViolatedPlain(reqs);
    Sorting.SortBag(le, Violated(reqs));
    SeparableBag(Violated(reqs), Sorting.Sort(le, Violated(reqs)));
  }

  lemma SeparableBag(a: seq<string>, b: seq<string>)
    requires Separable(a) && multiset(a) == multiset(b)
    ensures Separable(b)
  {
    forall id | id in b ensures id in a { assert multiset(b)[id] > 0; }
  }

  lemma FailuresTextIff(le: (string, string) -> bool, a: seq<Requirement>, b: seq<Requirement>)
    requires TextOrder(le) && Plain(a) && Plain(b)
    ensures Joined(Sorting.Sort(le, Violated(a))) == Joined(Sorting.Sort(le, Violated(b))) <==> SameFailures(a, b)
  {
    var x, y := Sorting.Sort(le, Violated(a)), Sorting.Sort(le, Violated(b));
    SortedPlain(le, a);
    SortedPlain(le, b);
    Sorting.SortBag(le, Violated(a));
    Sorting.SortBag(le, Violated(b));
    forall id ensures multiset(x)[id] == Count(a, id) && multiset(y)[id] == Count(b, id) {
      CountIs(a, id);
      CountIs(b, id);
    }
    if Joined(x) == Joined(y) {
      JoinedInjective(x, y);
    } else if SameFailures(a, b) {
      assert multiset(x) == multiset(y);
      Sorting.SortSorted(le, Violated(a));
      Sorting.SortSorted(le, Violated(b));
      Sorting.SortedUnique(le, x, y);
    }
  }

  /**
   * Two tasks have one key exactly when they are about the same site and the same version and the same
   * requirements fail, information aside and whatever their order.
   */
  lemma KeysEqualIff(le: (string, string) -> bool, t: Line, a: seq<Requirement>, u: Line, b: seq<Requirement>,
                     s1: string, v1: string, s2: string, v2: string)
    requires TextOrder(le) && t.Task? && u.Task? && Plain(a) && Plain(b)
    requires About(t, s1) && Names(t, v1) && About(u, s2) && Names(u, v2)
    ensures KeyOf(le, t, a) == KeyOf(le, u, b) <==>
              s1 == s2 && v1 == v2 && SameFailures(Asked(t, a), Asked(u, b))
  {
    KeyParts(le, t, a, s1, v1);
    KeyParts(le, u, b, s2, v2);
    FailuresTextIff(le, Asked(t, a), Asked(u, b));
  }

  // ------------------------------------------------------------------ one dispatch per class

  /** A line that asks for a repair: a task with an id that is no product build and no mirror of a dispatch. */
  predicate AsksRepair(t: Line) {
    t.Task? && t.id.Some? && t.id.value != "" && t.kind != Some("product-build")
    && t.status != Some("workorder-created") && t.status != Some("dispatch-failed")
  }

  lemma AsksRepairIff(le: (string, string) -> bool, j: Job)
    requires j.turn.answer.Some?
    ensures CaseOf(le, j).nature.Repair? <==> AsksRepair(j.line)
    ensures AsksRepair(j.line) ==> CaseOf(le, j).nature == Repair(j.line.id.value, KeyOf(le, j.line, j.turn.answer.value))
  {}

  /** Case `i` is the first with its key. */
  ghost predicate FirstOf(cs: seq<Case>, i: int, key: Key) {
    0 <= i < |cs| && cs[i].nature.Repair? && cs[i].nature.key == key
    && forall j :: 0 <= j < i ==> !(cs[j].nature.Repair? && cs[j].nature.key == key)
  }

  /** What has gone out is, for each repair key of the cases so far, the first task with it. */
  ghost predicate SentFirsts(cs: seq<Case>, r: Run) {
    && (forall d :: d in r.disk.dispatches ==> exists i :: FirstOf(cs, i, d.key) && cs[i].nature.id == d.id)
    && (forall k :: k in r.open ==> k in KeySeq(r.disk.dispatches))
  }

  lemma SentStep(cs: seq<Case>, c: Case, r: Run)
    requires SentFirsts(cs, r) && !r.dead && Clean(c) && r.open.Keys == RepairKeys(cs)
    ensures SentFirsts(cs + [c], Next(r, c))
  {
    var t, all := Next(r, c), cs + [c];
    forall d | d in r.disk.dispatches ensures exists i :: FirstOf(all, i, d.key) && all[i].nature.id == d.id {
      var i :| FirstOf(cs, i, d.key) && cs[i].nature.id == d.id;
      assert all[..|cs|] == cs;
      assert FirstOf(all, i, d.key);
    }
    if c.nature.Repair? {
      KeySeqSnoc(r.disk.dispatches, Dispatch(c.nature.key, c.nature.id));
      if c.nature.key !in r.open {
        assert forall j :: 0 <= j < |cs| ==> cs[j] in cs;
        assert FirstOf(all, |cs|, c.nature.key);
      }
    }
  }

  lemma {:induction false} CleanRunSends(key: Id -> Option<Key>, cs: seq<Case>)
    requires Stable(key, cs) && forall c :: c in cs ==> Clean(c)
    ensures var r := After(Opened(EMPTY, true, true), cs);
            !r.dead && r.open.Keys == RepairKeys(cs) && SentFirsts(cs, r)
  {
    var r0 := Opened(EMPTY, true, true);
    CleanRunOpens(key, r0, cs);
    assert r0.open.Keys == {};
    if cs != [] {
      var n := |cs| - 1;
      assert cs[n] in cs && cs == cs[..n] + [cs[n]];
      CleanRunSends(key, cs[..n]);
      SentStep(cs[..n], cs[n], After(r0, cs[..n]));
    }
  }

  /**
   * A clean run over any queue, from empty files: for every line that asks for a repair exactly one dispatch carries
   * its key, and every dispatch is of a line that asks for one, the first with its key. No other line is sent.
   */
  lemma OneDispatchPerClass(le: (string, string) -> bool, jobs: seq<Job>, key: Id -> Option<Key>)
    requires Stable(key, Cases(le, jobs))
    requires forall j :: j in jobs ==> j.turn.answer.Some? && !j.turn.dies && j.turn.fate.Accepted?
    ensures var ds := After(Opened(EMPTY, true, true), Cases(le, jobs)).disk.dispatches;
            && NoRepeats(KeySeq(ds))
            && (forall i :: 0 <= i < |jobs| && AsksRepair(jobs[i].line) ==>
                  KeyOf(le, jobs[i].line, jobs[i].turn.answer.value) in KeySeq(ds))
            && (forall d :: d in ds ==> exists i :: SentFor(le, jobs, i, d))
  {
    var cs := Cases(le, jobs);
    var r := After(Opened(EMPTY, true, true), cs);
    forall i | 0 <= i < |jobs|
      ensures Clean(cs[i]) && (cs[i].nature.Repair? <==> AsksRepair(jobs[i].line))
      ensures AsksRepair(jobs[i].line) ==>
                cs[i].nature == Repair(jobs[i].line.id.value, KeyOf(le, jobs[i].line, jobs[i].turn.answer.value))
    {
      assert jobs[i] in jobs;
      AsksRepairIff(le, jobs[i]);
    }
    CleanRunSends(key, cs);
    RunKeepsOnce(Opened(EMPTY, true, true), cs);
    forall i | 0 <= i < |jobs| && AsksRepair(jobs[i].line)
      ensures KeyOf(le, jobs[i].line, jobs[i].turn.answer.value) in KeySeq(r.disk.dispatches)
    {
      assert cs[i] in cs && cs[i].nature.key in RepairKeys(cs);
    }
    forall d | d in r.disk.dispatches ensures exists i :: SentFor(le, jobs, i, d) {
      var i :| FirstOf(cs, i, d.key) && cs[i].nature.id == d.id;
      assert SentFor(le, jobs, i, d);
    }
  }

  /** The dispatch is of line `i`, which asks for a repair no earlier line has asked for. */
  ghost predicate SentFor(le: (string, string) -> bool, jobs: seq<Job>, i: int, d: Dispatch) {
    && 0 <= i < |jobs| && AsksRepair(jobs[i].line) && jobs[i].turn.answer.Some?
    && d == Dispatch(KeyOf(le, jobs[i].line, jobs[i].turn.answer.value), jobs[i].line.id.value)
    && forall j :: 0 <= j < i && AsksRepair(jobs[j].line) && jobs[j].turn.answer.Some? ==>
         KeyOf(le, jobs[j].line, jobs[j].turn.answer.value) != d.key
  }

  /** A run that gets to its end writes its consumed ids, the last 500 of them if there are more; a dead one writes none. */
  lemma FileKeepsLast(r: Run)
    ensures r.dead ==> Closed(r) == r.disk
    ensures !r.dead ==>
              var f := Closed(r).consumed;
              && |f| == (if |r.consumed| < 500 then |r.consumed| else 500)
              && r.consumed[|r.consumed| - |f|..] == f
              && Closed(r) == r.disk.(consumed := f)
  {}
}
