/** Sorting by a strict weak order. Callers may rely only on the result being a sorted
    permutation: the library sort the program calls promises no more. */
module Sorting {
  import opened Collections

  ghost predicate StrictWeakOrder<T(!new)>(less: (T, T) -> bool) {
    && (forall a :: !less(a, a))
    && (forall a, b, c :: less(a, b) && less(b, c) ==> less(a, c))
    && (forall a, b, c :: !less(a, b) && !less(b, c) ==> !less(a, c))
  }

  ghost predicate Sorted<T>(s: seq<T>, less: (T, T) -> bool) {
    forall i, j | 0 <= i < j < |s| :: !less(s[j], s[i])
  }

  method Insert<T(!new)>(s: seq<T>, x: T, less: (T, T) -> bool) returns (r: seq<T>)
    requires StrictWeakOrder(less) && Sorted(s, less)
    ensures Sorted(r, less) && multiset(r) == multiset(s) + multiset{x}
  {
    var i := |s|;
    while i > 0 && less(x, s[i - 1])
      invariant 0 <= i <= |s|
      invariant forall j | i <= j < |s| :: less(x, s[j])
    {
      i := i - 1;
    }
    Bounds(s, x, i, less);
    InsertedSorted(s, x, i, less);
    assert s == s[..i] + s[i..];
    r := s[..i] + [x] + s[i..];
  }

  lemma Bounds<T(!new)>(s: seq<T>, x: T, i: nat, less: (T, T) -> bool)
    requires StrictWeakOrder(less) && Sorted(s, less) && i <= |s|
    requires i > 0 ==> !less(x, s[i - 1])
    requires forall j | i <= j < |s| :: less(x, s[j])
    ensures forall j | 0 <= j < i :: !less(x, s[j])
    ensures forall j | i <= j < |s| :: !less(s[j], x)
  {
    forall j | 0 <= j < i ensures !less(x, s[j]) {
      if j < i - 1 { assert !less(x, s[i - 1]) && !less(s[i - 1], s[j]); }
    }
    forall j | i <= j < |s| ensures !less(s[j], x) {
      assert less(x, s[j]) && !less(x, x);
    }
  }

  lemma InsertedSorted<T>(s: seq<T>, x: T, i: nat, less: (T, T) -> bool)
    requires Sorted(s, less) && i <= |s|
    requires forall j | 0 <= j < i :: !less(x, s[j])
    requires forall j | i <= j < |s| :: !less(s[j], x)
    ensures Sorted(s[..i] + [x] + s[i..], less)
  {
  }

  method Sort<T(!new)>(s: seq<T>, less: (T, T) -> bool) returns (r: seq<T>)
    requires StrictWeakOrder(less)
    ensures Sorted(r, less) && multiset(r) == multiset(s)
  {
    r := [];
    for i := 0 to |s|
      invariant Sorted(r, less) && multiset(r) == multiset(s[..i])
    {
      r := Insert(r, s[i], less);
      assert s[..i + 1] == s[..i] + [s[i]];
    }
    assert s[..|s|] == s;
  }

  lemma {:induction false} DistinctOnce<T>(s: seq<T>, x: T)
    requires Distinct(s)
    ensures multiset(s)[x] <= 1
  {
    if s != [] {
      var front := s[..|s| - 1];
      assert s == front + [s[|s| - 1]];
      DistinctOnce(front, x);
      if x == s[|s| - 1] {
        assert x !in front;
      }
    }
  }

  /** A permutation of a sequence of distinct elements has distinct elements, the same ones. */
  lemma PermutationKeeps<T>(s: seq<T>, r: seq<T>)
    requires multiset(s) == multiset(r) && Distinct(s)
    ensures Distinct(r) && |r| == |s|
    ensures forall x :: x in r <==> x in s
  {
    assert |multiset(s)| == |s| && |multiset(r)| == |r|;
    forall x ensures x in r <==> x in s {
      assert x in r <==> x in multiset(r);
      assert x in s <==> x in multiset(s);
    }
    forall i, j | 0 <= i < j < |r| ensures r[i] != r[j] {
      var x := r[i];
      DistinctOnce(s, x);
      assert r == r[..j] + [r[j]] + r[j + 1..];
      assert r[..j][i] == x;
      assert multiset(r) == multiset(r[..j]) + multiset{r[j]} + multiset(r[j + 1..]);
    }
  }

  // ----- the order of strings

  /** Lexicographic order of strings. */
  predicate StringLess(a: string, b: string) {
    b != [] && (a == [] || a[0] < b[0] || (a[0] == b[0] && StringLess(a[1..], b[1..])))
  }

  lemma StringLessIrreflexive(a: string)
    ensures !StringLess(a, a)
  {
  }

  lemma StringLessTransitive(a: string, b: string, c: string)
    requires StringLess(a, b) && StringLess(b, c)
    ensures StringLess(a, c)
  {
  }

  lemma StringLessTotal(a: string, b: string)
    requires !StringLess(a, b) && !StringLess(b, a)
    ensures a == b
  {
    if a != [] && b != [] {
      StringLessTotal(a[1..], b[1..]);
      assert a == [a[0]] + a[1..] && b == [b[0]] + b[1..];
    }
  }

  lemma StringOrder()
    ensures StrictWeakOrder(StringLess)
  {
    forall a ensures !StringLess(a, a) { StringLessIrreflexive(a); }
    forall a, b, c | StringLess(a, b) && StringLess(b, c) ensures StringLess(a, c) { StringLessTransitive(a, b, c); }
    forall a, b, c | !StringLess(a, b) && !StringLess(b, c) ensures !StringLess(a, c) {
      if StringLess(a, c) {
        if StringLess(b, a) {
          StringLessTransitive(b, a, c);
        } else {
          StringLessTotal(a, b);
        }
      }
    }
  }
}
