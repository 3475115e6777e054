/** A stable sort by a comparison, as `Array.prototype.sort` gives it. */
module Sorting {
  import opened Values


  ghost predicate TotalPreorder<T(!new)>(le: (T, T) -> bool) {
    && (forall x, y :: le(x, y) || le(y, x))
    && (forall x, y, z :: le(x, y) && le(y, z) ==> le(x, z))
  }

  ghost predicate SortedBy<T>(le: (T, T) -> bool, s: seq<T>) {
    forall i, j :: 0 <= i < j < |s| ==> le(s[i], s[j])
  }

  /** Insert `x` behind every element that does not have to come after it. */
  function InsertLast<T>(le: (T, T) -> bool, s: seq<T>, x: T): seq<T> {
    if s == [] then [x]
    else
      var n := |s| - 1;
      if le(s[n], x) then s + [x] else InsertLast(le, s[..n], x) + [s[n]]
  }

  function Sort<T>(le: (T, T) -> bool, s: seq<T>): seq<T> {
    if s == [] then [] else InsertLast(le, Sort(le, s[..|s| - 1]), s[|s| - 1])
  }

  lemma {:induction false} InsertLastBag<T>(le: (T, T) -> bool, s: seq<T>, x: T)
    ensures multiset(InsertLast(le, s, x)) == multiset(s) + multiset{x}
  {
    if s != [] {
      var n := |s| - 1;
      assert s == s[..n] + [s[n]];
      InsertLastBag(le, s[..n], x);
    }
  }

  /** Sorting neither adds nor loses an element. */
  lemma {:induction false} SortBag<T>(le: (T, T) -> bool, s: seq<T>)
    ensures multiset(Sort(le, s)) == multiset(s)
  {
    if s != [] {
      var n := |s| - 1;
      assert s == s[..n] + [s[n]];
      SortBag(le, s[..n]);
      InsertLastBag(le, Sort(le, s[..n]), s[n]);
    }
  }

  ghost predicate Below<T>(le: (T, T) -> bool, s: seq<T>, x: T) {
    forall i :: 0 <= i < |s| ==> le(s[i], x)
  }

  lemma SortedSnoc<T(!new)>(le: (T, T) -> bool, s: seq<T>, x: T)
    requires SortedBy(le, s) && Below(le, s, x)
    ensures SortedBy(le, s + [x])
  {}

  lemma {:induction false} InsertLastBelow<T(!new)>(le: (T, T) -> bool, s: seq<T>, x: T, top: T)
    requires Below(le, s, top) && le(x, top)
    ensures Below(le, InsertLast(le, s, x), top)
  {
    if s != [] && !le(s[|s| - 1], x) {
      InsertLastBelow(le, s[..|s| - 1], x, top);
    }
  }

  lemma {:induction false} InsertLastSorted<T(!new)>(le: (T, T) -> bool, s: seq<T>, x: T)
    requires TotalPreorder(le) && SortedBy(le, s)
    ensures SortedBy(le, InsertLast(le, s, x))
  {
    if s != [] {
      var n := |s| - 1;
      if le(s[n], x) {
        forall i | 0 <= i < |s| ensures le(s[i], x) {
          if i < n { assert le(s[i], s[n]); }
        }
        SortedSnoc(le, s, x);
      } else {
        assert SortedBy(le, s[..n]) && Below(le, s[..n], s[n]);
        InsertLastSorted(le, s[..n], x);
        InsertLastBelow(le, s[..n], x, s[n]);
        SortedSnoc(le, InsertLast(le, s[..n], x), s[n]);
      }
    }
  }

  lemma {:induction false} SortSorted<T(!new)>(le: (T, T) -> bool, s: seq<T>)
    requires TotalPreorder(le)
    ensures SortedBy(le, Sort(le, s))
  {
    if s != [] {
      SortSorted(le, s[..|s| - 1]);
      InsertLastSorted(le, Sort(le, s[..|s| - 1]), s[|s| - 1]);
    }
  }

  lemma LastIsGreatest<T(!new)>(le: (T, T) -> bool, a: seq<T>, x: T)
    requires SortedBy(le, a) && x in a
    ensures x == a[|a| - 1] || le(x, a[|a| - 1])
  {}

  lemma DropLastBag<T>(a: seq<T>)
    requires a != []
    ensures multiset(a[..|a| - 1]) == multiset(a) - multiset{a[|a| - 1]}
  {
    assert a == a[..|a| - 1] + [a[|a| - 1]];
  }

  lemma SameLast<T(!new)>(le: (T, T) -> bool, a: seq<T>, b: seq<T>)
    requires SortedBy(le, a) && SortedBy(le, b) && multiset(a) == multiset(b) && a != [] && |a| == |b|
    requires TiesAreEqual(le, a)
    ensures a[|a| - 1] == b[|b| - 1]
  {
    var x, y := a[|a| - 1], b[|b| - 1];
    assert x in multiset(b) && y in multiset(a);
    LastIsGreatest(le, a, y);
    LastIsGreatest(le, b, x);
  }

  ghost predicate TiesAreEqual<T(!new)>(le: (T, T) -> bool, a: seq<T>) {
    forall x, y :: x in a && y in a && le(x, y) && le(y, x) ==> x == y
  }

  lemma SortedFront<T(!new)>(le: (T, T) -> bool, a: seq<T>)
    requires a != [] && SortedBy(le, a)
    ensures SortedBy(le, a[..|a| - 1]) && (TiesAreEqual(le, a) ==> TiesAreEqual(le, a[..|a| - 1]))
  {
    var front := a[..|a| - 1];
    assert forall x :: x in front ==> x in a;
    assert forall i :: 0 <= i < |front| ==> front[i] == a[i];
  }

  lemma SameFrontBag<T>(a: seq<T>, b: seq<T>)
    requires a != [] && b != [] && multiset(a) == multiset(b) && a[|a| - 1] == b[|b| - 1]
    ensures multiset(a[..|a| - 1]) == multiset(b[..|b| - 1])
  {
    DropLastBag(a);
    DropLastBag(b);
  }

  /** A sorted arrangement is unique when ties can only be between equal elements. */
  lemma {:induction false} SortedUnique<T(!new)>(le: (T, T) -> bool, a: seq<T>, b: seq<T>)
    requires SortedBy(le, a) && SortedBy(le, b) && multiset(a) == multiset(b) && TiesAreEqual(le, a)
    ensures a == b
  {
    assert |a| == |multiset(a)| == |multiset(b)| == |b|;
    if a != [] {
      SameLast(le, a, b);
      SameFrontBag(a, b);
      SortedFront(le, a);
      SortedFront(le, b);
      SortedUnique(le, a[..|a| - 1], b[..|b| - 1]);
      SplitLast(a);
      SplitLast(b);
    }
  }

  // ------------------------------------------------------------------ stability

  /** The elements that tie with `x`, in order. */
  function Ties<T>(le: (T, T) -> bool, x: T, s: seq<T>): seq<T> {
    if s == [] then []
    else
      var n := |s| - 1;
      Ties(le, x, s[..n]) + if le(x, s[n]) && le(s[n], x) then [s[n]] else []
  }

  lemma TiesSnoc<T>(le: (T, T) -> bool, x: T, s: seq<T>, y: T)
    ensures Ties(le, x, s + [y]) == Ties(le, x, s) + if le(x, y) && le(y, x) then [y] else []
  {
    assert (s + [y])[..|s|] == s;
  }

  lemma {:induction false} InsertIsStable<T(!new)>(le: (T, T) -> bool, s: seq<T>, x: T, y: T)
    requires TotalPreorder(le)
    ensures Ties(le, x, InsertLast(le, s, y)) == Ties(le, x, s + [y])
  {
    TiesSnoc(le, x, s, y);
    if s != [] && !le(s[|s| - 1], y) {
      var n := |s| - 1;
      InsertIsStable(le, s[..n], x, y);
      TiesSnoc(le, x, s[..n], y);
      TiesSnoc(le, x, InsertLast(le, s[..n], y), s[n]);
      NotBothTied(le, s[n], y, x);
    }
  }

  lemma NotBothTied<T(!new)>(le: (T, T) -> bool, a: T, b: T, x: T)
    requires TotalPreorder(le) && !le(a, b)
    ensures !(le(x, a) && le(a, x) && le(x, b) && le(b, x))
  {}

  /** Sorting keeps the order of elements that tie. */
  lemma {:induction false} SortIsStable<T(!new)>(le: (T, T) -> bool, s: seq<T>, x: T)
    requires TotalPreorder(le)
    ensures Ties(le, x, Sort(le, s)) == Ties(le, x, s)
  {
    if s != [] {
      var n := |s| - 1;
      SortIsStable(le, s[..n], x);
      InsertIsStable(le, Sort(le, s[..n]), x, s[n]);
      TiesSnoc(le, x, Sort(le, s[..n]), s[n]);
    }
  }

  lemma {:induction false} TiesConcat<T>(le: (T, T) -> bool, x: T, a: seq<T>, b: seq<T>)
    ensures Ties(le, x, a + b) == Ties(le, x, a) + Ties(le, x, b)
  {
    if b == [] {
      assert a + b == a;
    } else {
      var n := |b| - 1;
      TiesConcat(le, x, a, b[..n]);
      assert a + b == (a + b[..n]) + [b[n]];
      TiesSnoc(le, x, a + b[..n], b[n]);
    }
  }

  function Mapped<T, U>(f: T -> U, s: seq<T>): seq<U> { seq(|s|, i requires 0 <= i < |s| => f(s[i])) }

  lemma RemoveAt<T>(s: seq<T>, i: nat)
    requires i < |s|
    ensures multiset(s[..i] + s[i + 1..]) == multiset(s) - multiset{s[i]}
  {
    assert s == s[..i] + [s[i]] + s[i + 1..];
  }

  lemma MappedRemoveAt<T, U>(f: T -> U, s: seq<T>, i: nat)
    requires i < |s|
    ensures multiset(Mapped(f, s)) == multiset(Mapped(f, s[..i] + s[i + 1..])) + multiset{f(s[i])}
  {
    var m := Mapped(f, s);
    assert Mapped(f, s[..i] + s[i + 1..]) == m[..i] + m[i + 1..];
    RemoveAt(m, i);
    assert m[i] in multiset(m);
  }

  /** Mapping a rearranged sequence gives a rearranged result. */
  lemma {:induction false} MappedBag<T, U>(f: T -> U, a: seq<T>, b: seq<T>)
    requires multiset(a) == multiset(b)
    ensures multiset(Mapped(f, a)) == multiset(Mapped(f, b))
    decreases |a|
  {
    assert |a| == |multiset(a)| == |multiset(b)| == |b|;
    if a != [] {
      var n := |a| - 1;
      assert a[n] in multiset(b);
      var i :| 0 <= i < |b| && b[i] == a[n];
      RemoveAt(a, n);
      RemoveAt(b, i);
      MappedBag(f, a[..n] + a[n + 1..], b[..i] + b[i + 1..]);
      MappedRemoveAt(f, a, n);
      MappedRemoveAt(f, b, i);
    }
  }
}
