/** Stable sorting by an order that may tie. */
module Sorting {

  type Order<!T> = (T, T) -> bool

  ghost predicate IsOrder<T(!new)>(atMost: Order<T>) {
    && (forall a, b :: atMost(a, b) || atMost(b, a))
    && forall a, b, c :: atMost(a, b) && atMost(b, c) ==> atMost(a, c)
  }

  function Insert<T>(x: T, xs: seq<T>, atMost: Order<T>): seq<T> {
    if xs == [] || atMost(x, xs[0]) then [x] + xs else [xs[0]] + Insert(x, xs[1..], atMost)
  }

  function Sort<T>(xs: seq<T>, atMost: Order<T>): seq<T> {
    if xs == [] then [] else Insert(xs[0], Sort(xs[1..], atMost), atMost)
  }

  predicate Ordered<T(!new)>(xs: seq<T>, atMost: Order<T>) {
    forall i, j :: 0 <= i < j < |xs| ==> atMost(xs[i], xs[j])
  }

  /** The elements that tie with `x`, in the order they stand in. */
  function Ties<T>(xs: seq<T>, x: T, atMost: Order<T>): seq<T> {
    if xs == [] then []
    else (if atMost(xs[0], x) && atMost(x, xs[0]) then [xs[0]] else []) + Ties(xs[1..], x, atMost)
  }

  lemma {:induction false} InsertPermutes<T>(x: T, xs: seq<T>, atMost: Order<T>)
    ensures multiset(Insert(x, xs, atMost)) == multiset{x} + multiset(xs)
  {
    if xs != [] && !atMost(x, xs[0]) {
      InsertPermutes(x, xs[1..], atMost);
      assert xs == [xs[0]] + xs[1..];
    }
  }

  lemma {:induction false} SortPermutes<T>(xs: seq<T>, atMost: Order<T>)
    ensures multiset(Sort(xs, atMost)) == multiset(xs)
  {
    if xs != [] {
      SortPermutes(xs[1..], atMost);
      InsertPermutes(xs[0], Sort(xs[1..], atMost), atMost);
      assert xs == [xs[0]] + xs[1..];
    }
  }

  lemma {:induction false} InsertOrders<T(!new)>(x: T, xs: seq<T>, atMost: Order<T>)
    requires IsOrder(atMost) && Ordered(xs, atMost)
    ensures Ordered(Insert(x, xs, atMost), atMost)
  {
    if xs != [] && !atMost(x, xs[0]) {
      var rest := Insert(x, xs[1..], atMost);
      InsertOrders(x, xs[1..], atMost);
      InsertPermutes(x, xs[1..], atMost);
      forall j | 0 <= j < |rest|
        ensures atMost(xs[0], rest[j])
      {
        assert rest[j] in multiset(rest);
        assert rest[j] == x || rest[j] in xs[1..];
      }
    }
  }

  lemma {:induction false} InsertIsStable<T(!new)>(x: T, xs: seq<T>, y: T, atMost: Order<T>)
    requires IsOrder(atMost)
    ensures Ties(Insert(x, xs, atMost), y, atMost) == Ties([x] + xs, y, atMost)
  {
    assert ([x] + xs)[1..] == xs;
    if xs != [] && !atMost(x, xs[0]) {
      var rest := Insert(x, xs[1..], atMost);
      InsertIsStable(x, xs[1..], y, atMost);
      assert ([xs[0]] + rest)[1..] == rest && ([x] + xs[1..])[1..] == xs[1..];
    }
  }

  lemma {:induction false} SortIsStable<T(!new)>(xs: seq<T>, y: T, atMost: Order<T>)
    requires IsOrder(atMost)
    ensures Ordered(Sort(xs, atMost), atMost)
    ensures Ties(Sort(xs, atMost), y, atMost) == Ties(xs, y, atMost)
  {
    if xs != [] {
      var rest := Sort(xs[1..], atMost);
      SortIsStable(xs[1..], y, atMost);
      InsertOrders(xs[0], rest, atMost);
      InsertIsStable(xs[0], rest, y, atMost);
      assert ([xs[0]] + rest)[1..] == rest;
    }
  }

  lemma {:induction false} SortFixed<T(!new)>(xs: seq<T>, atMost: Order<T>)
    requires Ordered(xs, atMost)
    ensures Sort(xs, atMost) == xs
  {
    if xs != [] {
      SortFixed(xs[1..], atMost);
      assert |xs| > 1 ==> atMost(xs[0], xs[1]);
    }
  }
}
