/** Taking the first few elements of a set in a given order, as `ORDER BY … LIMIT` and `ROW_NUMBER()` do. */
module Ranking {
  import opened Prelude

  /** `less` orders the elements of `s` strictly and totally. */
  ghost predicate Strict<T(!new)>(s: set<T>, less: (T, T) -> bool) {
    && (forall x | x in s :: !less(x, x))
    && (forall x, y | x in s && y in s && x != y :: less(x, y) || less(y, x))
    && (forall x, y, z | x in s && y in s && z in s && less(x, y) && less(y, z) :: less(x, z))
  }

  /** The elements strictly before `x`; one more than their number is the rank of `x`. */
  function Ahead<T>(s: set<T>, less: (T, T) -> bool, x: T): set<T> {
    set y | y in s && less(y, x)
  }

  function First<T>(s: set<T>, less: (T, T) -> bool, n: int): set<T> {
    set x | x in s && |Ahead(s, less, x)| < n
  }

  lemma SubsetCardinality<T>(a: set<T>, b: set<T>)
    requires a <= b
    ensures |a| <= |b|
  {
    assert b == a + (b - a);
  }

  lemma HasLast<T(!new)>(s: set<T>, less: (T, T) -> bool) returns (last: T)
    requires s != {} && Strict(s, less)
    ensures last in s && forall x | x in s && x != last :: less(x, last)
    decreases |s|
  {
    last :| last in s;
    var rest := s - {last};
    if rest != {} {
      var other := HasLast(rest, less);
      if less(last, other) {
        last := other;
      } else {
        assert less(other, last);
      }
    }
  }

  /** The first `n` are `n` elements, or all of them. */
  lemma {:induction false} FirstCount<T(!new)>(s: set<T>, less: (T, T) -> bool, n: int)
    requires Strict(s, less)
    ensures |First(s, less, n)| == Min(Max(n, 0), |s|)
    decreases |s|
  {
    if s != {} {
      var last := HasLast(s, less);
      var rest := s - {last};
      assert Ahead(s, less, last) == rest;
      forall x | x in rest
        ensures Ahead(s, less, x) == Ahead(rest, less, x)
      {
        assert !less(last, x) by { assert less(x, last); assert !less(x, x); }
      }
      assert First(s, less, n) == First(rest, less, n) + if |rest| < n then {last} else {};
      FirstCount(rest, less, n);
    } else {
      assert First(s, less, n) == {};
    }
  }

  /** Whatever is left out comes after everything taken. */
  lemma FirstPrecedes<T(!new)>(s: set<T>, less: (T, T) -> bool, n: int, x: T, y: T)
    requires Strict(s, less) && x in First(s, less, n) && y in s && y !in First(s, less, n)
    ensures less(x, y)
  {
    if !less(x, y) {
      assert x != y && less(y, x);
      assert Ahead(s, less, y) <= Ahead(s, less, x);
      SubsetCardinality(Ahead(s, less, y), Ahead(s, less, x));
    }
  }

  /** Taking the first twice is taking them once. */
  lemma FirstOfFirst<T>(s: set<T>, less: (T, T) -> bool, n: int)
    ensures First(First(s, less, n), less, n) == First(s, less, n)
  {
    var u := First(s, less, n);
    forall x | x in u
      ensures |Ahead(u, less, x)| < n
    {
      SubsetCardinality(Ahead(u, less, x), Ahead(s, less, x));
    }
  }

  /** A set with at most one element. */
  lemma AtMostOne<T>(s: set<T>, x: T, y: T)
    requires |s| <= 1 && x in s && y in s
    ensures x == y
  {
    if x != y {
      SubsetCardinality({x, y}, s);
    }
  }

  /** The sequence lists the set, each element after those that come before it. */
  ghost predicate InOrder<T(!new)>(r: seq<T>, s: set<T>, less: (T, T) -> bool) {
    && (forall x :: x in r <==> x in s)
    && (forall i, j | 0 <= i < j < |r| :: less(r[i], r[j]))
  }

  /** Lists a set in order, the last element first put at the end. */
  method Sorted<T(==, !new)>(s: set<T>, less: (T, T) -> bool) returns (r: seq<T>)
    requires Strict(s, less)
    ensures InOrder(r, s, less) && |r| == |s|
  {
    r := [];
    var rest := s;
    while rest != {}
      invariant rest <= s && |r| + |rest| == |s|
      invariant forall x :: x in r <==> x in s && x !in rest
      invariant forall x, j | x in rest && 0 <= j < |r| :: less(x, r[j])
      invariant forall i, j | 0 <= i < j < |r| :: less(r[i], r[j])
      decreases |rest|
    {
      ghost var latest := HasLast(rest, less);
      var last :| last in rest && forall x | x in rest :: x == last || less(x, last);
      r := [last] + r;
      rest := rest - {last};
    }
  }

  /** Elements that come before all the others are the first ones. */
  lemma FirstIs<T(!new)>(s: set<T>, less: (T, T) -> bool, b: set<T>)
    requires Strict(s, less) && b <= s
    requires forall x, y | x in b && y in s && y !in b :: less(x, y)
    ensures First(s, less, |b|) == b
  {
    forall x | x in s
      ensures x in First(s, less, |b|) <==> x in b
    {
      if x in b {
        forall y | y in Ahead(s, less, x)
          ensures y in b - {x}
        {
          assert y !in b ==> less(x, y) && less(x, x);
        }
        SubsetCardinality(Ahead(s, less, x), b - {x});
      } else {
        SubsetCardinality(b, Ahead(s, less, x));
      }
    }
  }

  /** Lists a set without repetition. */
  method Elements<T(==)>(s: set<T>) returns (r: seq<T>)
    ensures forall x :: x in r <==> x in s
    ensures forall i, j | 0 <= i < j < |r| :: r[i] != r[j]
    ensures |r| == |s|
  {
    r := [];
    var rest := s;
    while rest != {}
      invariant rest <= s && |r| + |rest| == |s|
      invariant forall x :: x in r <==> x in s && x !in rest
      invariant forall i, j | 0 <= i < j < |r| :: r[i] != r[j]
      decreases |rest|
    {
      var x :| x in rest;
      r := r + [x];
      rest := rest - {x};
    }
  }
}
