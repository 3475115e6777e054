/** JSON-like values and a few facts about sequences shared by every module. */
module Values {

  datatype Option<+T> = None | Some(value: T)

  /** A JSON value as the event payloads and entity data hold it. */
  datatype Value =
    | Undefined
    | Null
    | Bool(b: bool)
    | Num(n: real)
    | Str(s: string)
    | List(items: seq<Value>)
    | Obj(fields: map<string, Value>)

  ghost predicate Distinct<T(!new)>(s: seq<T>) {
    forall i, j :: 0 <= i < j < |s| ==> s[i] != s[j]
  }

  /** The same property element by element, which the solver unfolds one step at a time. */
  ghost predicate NoRepeats<T(!new)>(s: seq<T>) {
    s == [] || (s[|s| - 1] !in s[..|s| - 1] && NoRepeats(s[..|s| - 1]))
  }

  lemma NoRepeatsSnoc<T(!new)>(s: seq<T>, x: T)
    ensures NoRepeats(s + [x]) <==> NoRepeats(s) && x !in s
  {
    assert (s + [x])[..|s|] == s;
  }

  lemma {:induction false} NoRepeatsIffDistinct<T(!new)>(s: seq<T>)
    ensures NoRepeats(s) <==> Distinct(s)
  {
    if s != [] {
      var n := |s| - 1;
      NoRepeatsIffDistinct(s[..n]);
      if Distinct(s) {
        assert forall i :: 0 <= i < n ==> s[..n][i] == s[i];
      }
      if NoRepeats(s) {
        forall i, j | 0 <= i < j < |s| ensures s[i] != s[j] {
          assert s[i] == s[..n][i];
          if j < n { assert s[j] == s[..n][j]; }
        }
      }
    }
  }

  /** Appending a new element to a duplicate-free sequence keeps it duplicate-free. */
  lemma DistinctSnoc<T(!new)>(s: seq<T>, x: T)
    requires Distinct(s) && x !in s
    ensures Distinct(s + [x])
  {}

  lemma DistinctConcat<T(!new)>(a: seq<T>, b: seq<T>)
    requires Distinct(a) && Distinct(b)
    requires forall x :: x in a ==> x !in b
    ensures Distinct(a + b)
  {
    forall i, j | 0 <= i < j < |a + b| ensures (a + b)[i] != (a + b)[j] {
      if i < |a| <= j {
        assert (a + b)[i] in a && (a + b)[j] in b;
      }
    }
  }

  lemma SplitLast<T>(s: seq<T>)
    requires s != []
    ensures s == s[..|s| - 1] + [s[|s| - 1]]
  {}

  // A sealed predicate is a quantifier over a mark: it is inert until a proof names the mark.
  ghost predicate Unsealed(mark: bool) { true }
}
