/** When sorting by one comparison before stably sorting by another makes a difference. */
module PreSort {
  import opened Values
  import opened Sorting

  predicate Tie<T>(le: (T, T) -> bool, x: T, y: T) { le(x, y) && le(y, x) }

  // ------------------------------------------------------------------ a sorted sequence is its ties

  lemma {:induction false} TiesHold<T>(le: (T, T) -> bool, x: T, s: seq<T>)
    ensures forall y :: y in Ties(le, x, s) <==> y in s && Tie(le, x, y)
  {
    if s != [] {
      TiesHold(le, x, s[..|s| - 1]);
      SplitLast(s);
    }
  }

  lemma LastOfTies<T>(le: (T, T) -> bool, x: T, s: seq<T>)
    requires s != [] && Tie(le, x, s[|s| - 1])
    ensures var t := Ties(le, x, s); t != [] && t[|t| - 1] == s[|s| - 1] && t[..|t| - 1] == Ties(le, x, s[..|s| - 1])
  {}

  /** The last elements of two sorted rearrangements tie. */
  lemma LastsTie<T(!new)>(le: (T, T) -> bool, a: seq<T>, b: seq<T>)
    requires TotalPreorder(le) && SortedBy(le, a) && SortedBy(le, b) && multiset(a) == multiset(b) && a != [] && b != []
    ensures Tie(le, a[|a| - 1], b[|b| - 1])
  {
    var x, y := a[|a| - 1], b[|b| - 1];
    assert x in multiset(b) && y in multiset(a);
    LastIsGreatest(le, a, y);
    LastIsGreatest(le, b, x);
  }

  /** Two sorted rearrangements that order every group of ties alike are the same. */
  lemma {:induction false} SortedByTies<T(!new)>(le: (T, T) -> bool, a: seq<T>, b: seq<T>)
    requires TotalPreorder(le) && SortedBy(le, a) && SortedBy(le, b) && multiset(a) == multiset(b)
    requires forall x :: Ties(le, x, a) == Ties(le, x, b)
    ensures a == b
  {
    assert |a| == |multiset(a)| == |multiset(b)| == |b|;
    if a != [] {
      var n := |a| - 1;
      LastsTie(le, a, b);
      LastOfTies(le, a[n], a);
      LastOfTies(le, a[n], b);
      assert Ties(le, a[n], a) == Ties(le, a[n], b);
      SameFrontBag(a, b);
      SortedFront(le, a);
      SortedFront(le, b);
      forall x ensures Ties(le, x, a[..n]) == Ties(le, x, b[..n]) { SameFrontTies(le, x, a, b); }
      SortedByTies(le, a[..n], b[..n]);
      SplitLast(a);
      SplitLast(b);
    }
  }

  lemma SameFrontTies<T(!new)>(le: (T, T) -> bool, x: T, a: seq<T>, b: seq<T>)
    requires a != [] && b != [] && a[|a| - 1] == b[|b| - 1] && Ties(le, x, a) == Ties(le, x, b)
    ensures Ties(le, x, a[..|a| - 1]) == Ties(le, x, b[..|b| - 1])
  {
    var s, t := Ties(le, x, a[..|a| - 1]), Ties(le, x, b[..|b| - 1]);
    var more := Ties(le, x, a);
    if Tie(le, x, a[|a| - 1]) { assert s == more[..|more| - 1] == t; } else { assert s == more == t; }
  }

  // ------------------------------------------------------------------ sorting keeps to the groups

  lemma InsertSnoc<T>(p: (T, T) -> bool, t: seq<T>, z: T, y: T)
    ensures InsertLast(p, t + [z], y) == if p(z, y) then t + [z] + [y] else InsertLast(p, t, y) + [z]
  {
    assert (t + [z])[..|t|] == t;
  }

  /** Inserting behind everything. */
  lemma InsertTop<T>(p: (T, T) -> bool, t: seq<T>, y: T)
    requires t == [] || p(t[|t| - 1], y)
    ensures InsertLast(p, t, y) == t + [y]
  {}

  /** Inserting into a sorted sequence inserts into each group of ties or leaves it. */
  lemma {:induction false} InsertTies<T(!new)>(p: (T, T) -> bool, le: (T, T) -> bool, x: T, s: seq<T>, y: T)
    requires TotalPreorder(p) && SortedBy(p, s)
    ensures Ties(le, x, InsertLast(p, s, y)) == if Tie(le, x, y) then InsertLast(p, Ties(le, x, s), y) else Ties(le, x, s)
  {
    if s == [] {
      InsertTop(p, s, y);
      TiesSnoc(le, x, s, y);
      assert Ties(le, x, s) == [];
    } else {
      var n := |s| - 1;
      SplitLast(s);
      SortedFront(p, s);
      if p(s[n], y) {
        InsertAbove(p, le, x, s, y);
      } else {
        InsertTies(p, le, x, s[..n], y);
        InsertSnoc(p, s[..n], s[n], y);
        TiesSnoc(le, x, InsertLast(p, s[..n], y), s[n]);
        TiesSnoc(le, x, s[..n], s[n]);
        InsertSnoc(p, Ties(le, x, s[..n]), s[n], y);
        assert Ties(le, x, s[..n]) + [] == Ties(le, x, s[..n]);
        assert Ties(le, x, InsertLast(p, s[..n], y)) + [] == Ties(le, x, InsertLast(p, s[..n], y));
      }
    }
  }

  lemma InsertAbove<T(!new)>(p: (T, T) -> bool, le: (T, T) -> bool, x: T, s: seq<T>, y: T)
    requires TotalPreorder(p) && SortedBy(p, s) && s != [] && p(s[|s| - 1], y)
    ensures Ties(le, x, InsertLast(p, s, y)) == if Tie(le, x, y) then InsertLast(p, Ties(le, x, s), y) else Ties(le, x, s)
  {
    var t := Ties(le, x, s);
    InsertTop(p, s, y);
    TiesSnoc(le, x, s, y);
    if t != [] {
      TiesHold(le, x, s);
      assert t[|t| - 1] in t;
      LastIsGreatest(p, s, t[|t| - 1]);
    }
    InsertTop(p, t, y);
  }

  lemma {:induction false} SortTies<T(!new)>(p: (T, T) -> bool, le: (T, T) -> bool, x: T, s: seq<T>)
    requires TotalPreorder(p)
    ensures Ties(le, x, Sort(p, s)) == Sort(p, Ties(le, x, s))
  {
    if s != [] {
      var n := |s| - 1;
      SortTies(p, le, x, s[..n]);
      SortSorted(p, s[..n]);
      InsertTies(p, le, x, Sort(p, s[..n]), s[n]);
      SplitLast(s);
      TiesSnoc(le, x, s[..n], s[n]);
      SortSnoc(p, Ties(le, x, s[..n]), s[n]);
      assert Ties(le, x, s[..n]) + [] == Ties(le, x, s[..n]);
    }
  }

  lemma SortSnoc<T>(p: (T, T) -> bool, t: seq<T>, y: T)
    ensures Sort(p, t + [y]) == InsertLast(p, Sort(p, t), y)
  {
    assert (t + [y])[..|t|] == t;
  }

  lemma {:induction false} SortOfSorted<T(!new)>(p: (T, T) -> bool, s: seq<T>)
    requires TotalPreorder(p)
    ensures Sort(p, s) == s <==> SortedBy(p, s)
  {
    SortSorted(p, s);
    if SortedBy(p, s) && s != [] {
      var n := |s| - 1;
      SortedFront(p, s);
      SortOfSorted(p, s[..n]);
      assert n == 0 || p(s[n - 1], s[n]);
      assert s[..n] + [s[n]] == s;
    }
  }

  /** No later element of the sequence that ties with an earlier one by `le` goes before it by `p`. */
  ghost predicate Respects<T>(p: (T, T) -> bool, le: (T, T) -> bool, s: seq<T>) {
    forall i, j :: 0 <= i < j < |s| && Tie(le, s[i], s[j]) ==> p(s[i], s[j])
  }

  lemma SortedSnocIff<T>(p: (T, T) -> bool, s: seq<T>, y: T)
    ensures SortedBy(p, s + [y]) <==> SortedBy(p, s) && forall z :: z in s ==> p(z, y)
  {
    var t := s + [y];
    assert t[|s|] == y && forall i :: 0 <= i < |s| ==> t[i] == s[i];
    if SortedBy(p, t) {
      forall z | z in s ensures p(z, y) {
        var i :| 0 <= i < |s| && s[i] == z;
        assert p(t[i], t[|s|]);
      }
      forall i, j | 0 <= i < j < |s| ensures p(s[i], s[j]) { assert p(t[i], t[j]); }
    }
  }

  /** The group of `x` is sorted. */
  ghost predicate GroupSorted<T>(p: (T, T) -> bool, le: (T, T) -> bool, x: T, s: seq<T>) { SortedBy(p, Ties(le, x, s)) }

  lemma GroupSnoc<T>(p: (T, T) -> bool, le: (T, T) -> bool, x: T, s: seq<T>, y: T)
    ensures GroupSorted(p, le, x, s + [y]) <==>
              GroupSorted(p, le, x, s) && (Tie(le, x, y) ==> forall z :: z in s && Tie(le, x, z) ==> p(z, y))
  {
    TiesSnoc(le, x, s, y);
    TiesHold(le, x, s);
    SortedSnocIff(p, Ties(le, x, s), y);
    if Tie(le, x, y) {
      assert GroupSorted(p, le, x, s + [y]) == SortedBy(p, Ties(le, x, s) + [y]);
      assert forall z :: z in Ties(le, x, s) <==> z in s && Tie(le, x, z);
    } else {
      assert Ties(le, x, s) + [] == Ties(le, x, s);
    }
  }

  lemma {:induction false} GroupsSortedIff<T(!new)>(p: (T, T) -> bool, le: (T, T) -> bool, s: seq<T>)
    requires TotalPreorder(le)
    ensures Respects(p, le, s) <==> forall x :: GroupSorted(p, le, x, s)
  {
    if s != [] {
      var front, y := s[..|s| - 1], s[|s| - 1];
      SplitLast(s);
      GroupsSortedIff(p, le, front);
      forall x
        ensures GroupSorted(p, le, x, s)
                <==> GroupSorted(p, le, x, front) && (Tie(le, x, y) ==> forall z :: z in front && Tie(le, x, z) ==> p(z, y))
      {
        GroupSnoc(p, le, x, front, y);
      }
      RespectsSnoc(p, le, front, y);
      if forall x :: GroupSorted(p, le, x, s) {
        assert GroupSorted(p, le, y, s);
      }
    }
  }

  lemma RespectsSnoc<T(!new)>(p: (T, T) -> bool, le: (T, T) -> bool, s: seq<T>, y: T)
    requires TotalPreorder(le)
    ensures Respects(p, le, s + [y]) <==> Respects(p, le, s) && forall z :: z in s && Tie(le, y, z) ==> p(z, y)
  {
    var t := s + [y];
    assert t[|s|] == y && forall i :: 0 <= i < |s| ==> t[i] == s[i];
    if Respects(p, le, t) {
      forall z | z in s && Tie(le, y, z) ensures p(z, y) {
        var i :| 0 <= i < |s| && s[i] == z;
        assert Tie(le, t[i], t[|s|]);
      }
      forall i, j | 0 <= i < j < |s| && Tie(le, s[i], s[j]) ensures p(s[i], s[j]) { assert Tie(le, t[i], t[j]); }
    }
    if Respects(p, le, s) && forall z :: z in s && Tie(le, y, z) ==> p(z, y) {
      forall i, j | 0 <= i < j < |t| && Tie(le, t[i], t[j]) ensures p(t[i], t[j]) {
        if j < |s| { assert Tie(le, s[i], s[j]); } else { assert s[i] in s && Tie(le, y, s[i]); }
      }
    }
  }

  /**
   * Sorting by `p` first changes the result of the stable sort by `le` exactly when, of some two elements that
   * tie by `le`, the later one goes before the earlier by `p`.
   */
  lemma PreSortIff<T(!new)>(p: (T, T) -> bool, le: (T, T) -> bool, s: seq<T>)
    requires TotalPreorder(p) && TotalPreorder(le)
    ensures Sort(le, Sort(p, s)) == Sort(le, s) <==> Respects(p, le, s)
  {
    var a, b := Sort(le, Sort(p, s)), Sort(le, s);
    SortSorted(le, Sort(p, s));
    SortSorted(le, s);
    SortBag(p, s);
    SortBag(le, Sort(p, s));
    SortBag(le, s);
    GroupsSortedIff(p, le, s);
    forall x ensures Ties(le, x, a) == Ties(le, x, b) <==> GroupSorted(p, le, x, s) {
      SortIsStable(le, Sort(p, s), x);
      SortIsStable(le, s, x);
      SortTies(p, le, x, s);
      SortOfSorted(p, Ties(le, x, s));
    }
    if Respects(p, le, s) { SortedByTies(le, a, b); }
  }

  // ------------------------------------------------------------------ sorting what is mapped

  /** The comparison of what `f` makes of two elements. */
  function Through<T, U>(f: T -> U, le: (U, U) -> bool): (T, T) -> bool { (x: T, y: T) => le(f(x), f(y)) }

  lemma MappedSnoc<T, U>(f: T -> U, s: seq<T>, x: T)
    ensures Mapped(f, s + [x]) == Mapped(f, s) + [f(x)]
  {}

  lemma {:induction false} InsertMapped<T, U>(f: T -> U, le: (U, U) -> bool, s: seq<T>, x: T)
    ensures InsertLast(le, Mapped(f, s), f(x)) == Mapped(f, InsertLast(Through(f, le), s, x))
  {
    if s != [] {
      var n := |s| - 1;
      SplitLast(s);
      MappedSnoc(f, s[..n], s[n]);
      InsertMapped(f, le, s[..n], x);
      InsertSnoc(le, Mapped(f, s[..n]), f(s[n]), f(x));
      MappedSnoc(f, s, x);
      MappedSnoc(f, InsertLast(Through(f, le), s[..n], x), s[n]);
    }
  }

  lemma {:induction false} SortMapped<T, U>(f: T -> U, le: (U, U) -> bool, s: seq<T>)
    ensures Sort(le, Mapped(f, s)) == Mapped(f, Sort(Through(f, le), s))
  {
    if s != [] {
      var n := |s| - 1;
      SplitLast(s);
      MappedSnoc(f, s[..n], s[n]);
      SortMapped(f, le, s[..n]);
      SortSnoc(le, Mapped(f, s[..n]), f(s[n]));
      InsertMapped(f, le, Sort(Through(f, le), s[..n]), s[n]);
    }
  }

  lemma MappedInjective<T(!new), U>(f: T -> U, a: seq<T>, b: seq<T>)
    requires forall x, y :: f(x) == f(y) ==> x == y
    ensures Mapped(f, a) == Mapped(f, b) <==> a == b
  {
    if Mapped(f, a) == Mapped(f, b) {
      assert |a| == |Mapped(f, a)| == |b|;
      forall i | 0 <= i < |a| ensures a[i] == b[i] { assert Mapped(f, a)[i] == Mapped(f, b)[i]; }
    }
  }
}
