/** `sorted(xs, key=...)`: stable sorting by an integer key. */
module Sorting {

  function Insert<T>(x: T, sorted: seq<T>, key: T -> int): seq<T> {
    if sorted == [] || key(x) <= key(sorted[0]) then [x] + sorted
    else [sorted[0]] + Insert(x, sorted[1..], key)
  }

  function SortBy<T>(xs: seq<T>, key: T -> int): seq<T> {
    if xs == [] then [] else Insert(xs[0], SortBy(xs[1..], key), key)
  }

  predicate Ascending<T>(xs: seq<T>, key: T -> int) {
    forall i, j :: 0 <= i < j < |xs| ==> key(xs[i]) <= key(xs[j])
  }

  /** The elements with key `k`, in order. */
  function WithKey<T>(xs: seq<T>, key: T -> int, k: int): seq<T> {
    if xs == [] then [] else (if key(xs[0]) == k then [xs[0]] else []) + WithKey(xs[1..], key, k)
  }

  lemma {:induction false} InsertElements<T>(x: T, sorted: seq<T>, key: T -> int)
    ensures multiset(Insert(x, sorted, key)) == multiset{x} + multiset(sorted)
    ensures forall y :: y in Insert(x, sorted, key) <==> y == x || y in sorted
  {
    if sorted != [] && key(x) > key(sorted[0]) {
      InsertElements(x, sorted[1..], key);
      assert sorted == [sorted[0]] + sorted[1..];
    }
  }

  lemma {:induction false} InsertFloor<T>(x: T, sorted: seq<T>, key: T -> int, low: int)
    requires low <= key(x) && forall i :: 0 <= i < |sorted| ==> low <= key(sorted[i])
    ensures forall j :: 0 <= j < |Insert(x, sorted, key)| ==> low <= key(Insert(x, sorted, key)[j])
  {
    if sorted != [] && key(x) > key(sorted[0]) {
      InsertFloor(x, sorted[1..], key, low);
    }
  }

  lemma {:induction false} InsertAscending<T>(x: T, sorted: seq<T>, key: T -> int)
    requires Ascending(sorted, key)
    ensures Ascending(Insert(x, sorted, key), key)
  {
    if sorted != [] && key(x) > key(sorted[0]) {
      InsertAscending(x, sorted[1..], key);
      InsertFloor(x, sorted[1..], key, key(sorted[0]));
    }
  }

  lemma WithKeyFirst<T>(x: T, xs: seq<T>, key: T -> int, k: int)
    ensures WithKey([x] + xs, key, k) == (if key(x) == k then [x] else []) + WithKey(xs, key, k)
  {
    assert ([x] + xs)[1..] == xs;
  }

  /** An element of another key changes places with the rest unnoticed. */
  lemma OthersPass<T>(first: T, rest: seq<T>, x: T, tail: seq<T>, key: T -> int, k: int)
    requires key(first) != key(x)
    requires WithKey(rest, key, k) == (if key(x) == k then [x] else []) + WithKey(tail, key, k)
    ensures WithKey([first] + rest, key, k) == (if key(x) == k then [x] else []) + WithKey([first] + tail, key, k)
  {
    WithKeyFirst(first, rest, key, k);
    WithKeyFirst(first, tail, key, k);
  }

  lemma {:induction false} InsertKeepsOrder<T>(x: T, sorted: seq<T>, key: T -> int, k: int)
    ensures WithKey(Insert(x, sorted, key), key, k) == (if key(x) == k then [x] else []) + WithKey(sorted, key, k)
  {
    if sorted == [] || key(x) <= key(sorted[0]) {
      WithKeyFirst(x, sorted, key, k);
    } else {
      var first, tail := sorted[0], sorted[1..];
      InsertKeepsOrder(x, tail, key, k);
      OthersPass(first, Insert(x, tail, key), x, tail, key, k);
      assert sorted == [first] + tail;
    }
  }

  /** The result is in ascending order, holds the same elements, and keeps elements of equal
      key in their original order. */
  lemma {:induction false} SortByCorrect<T>(xs: seq<T>, key: T -> int, k: int)
    ensures Ascending(SortBy(xs, key), key) && multiset(SortBy(xs, key)) == multiset(xs)
    ensures WithKey(SortBy(xs, key), key, k) == WithKey(xs, key, k)
  {
    if xs == [] {
    } else {
      SortByCorrect(xs[1..], key, k);
      InsertElements(xs[0], SortBy(xs[1..], key), key);
      InsertAscending(xs[0], SortBy(xs[1..], key), key);
      InsertKeepsOrder(xs[0], SortBy(xs[1..], key), key, k);
      assert xs == [xs[0]] + xs[1..];
    }
  }

  lemma SameElements<T>(xs: seq<T>, key: T -> int)
    ensures |SortBy(xs, key)| == |xs| && forall x :: x in SortBy(xs, key) <==> x in xs
  {
    SortByCorrect(xs, key, 0);
    assert forall x :: x in SortBy(xs, key) <==> x in multiset(SortBy(xs, key));
    assert |SortBy(xs, key)| == |multiset(SortBy(xs, key))| == |multiset(xs)|;
  }

  lemma {:induction false} WithKeyIn<T>(xs: seq<T>, key: T -> int, k: int, x: T)
    ensures x in WithKey(xs, key, k) <==> x in xs && key(x) == k
  {
    if xs == [] {
    } else {
      WithKeyIn(xs[1..], key, k, x);
      assert x in xs <==> x == xs[0] || x in xs[1..];
    }
  }

  /** Nothing else is a stable ascending arrangement of the same elements. */
  lemma {:induction false} StableSortUnique<T>(a: seq<T>, b: seq<T>, key: T -> int)
    requires Ascending(a, key) && Ascending(b, key)
    requires forall k :: WithKey(a, key, k) == WithKey(b, key, k)
    ensures a == b
    decreases |a|
  {
    if a == [] {
    } else {
      WithKeyIn(a, key, key(a[0]), a[0]);
      assert WithKey(a, key, key(a[0])) == WithKey(b, key, key(a[0]));
      WithKeyIn(b, key, key(a[0]), a[0]);
      WithKeyIn(b, key, key(b[0]), b[0]);
      assert WithKey(a, key, key(b[0])) == WithKey(b, key, key(b[0]));
      WithKeyIn(a, key, key(b[0]), b[0]);
      var k := key(a[0]);
      assert key(b[0]) == k;
      assert WithKey(a, key, k)[0] == a[0] && WithKey(b, key, k)[0] == b[0];
      forall j ensures WithKey(a[1..], key, j) == WithKey(b[1..], key, j) {
        assert WithKey(a, key, j) == WithKey(b, key, j);
        var head := if key(a[0]) == j then [a[0]] else [];
        assert WithKey(a, key, j) == head + WithKey(a[1..], key, j);
        assert WithKey(b, key, j) == head + WithKey(b[1..], key, j);
        assert (head + WithKey(a[1..], key, j))[|head|..] == WithKey(a[1..], key, j);
        assert (head + WithKey(b[1..], key, j))[|head|..] == WithKey(b[1..], key, j);
      }
      StableSortUnique(a[1..], b[1..], key);
    }
  }
}
