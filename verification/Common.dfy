/** Option, Result, days and periods, in the shape every other module of this project uses. */
module Common {

  datatype Option<+T> = None | Some(value: T) {
    function GetOr(default: T): T {
      match this
      case Some(v) => v
      case None => default
    }
  }

  datatype Result<+T, +E> = Success(value: T) | Failure(error: E)

  type Day = int

  /** Inclusive on both ends. */
  datatype Period = Period(first: Day, last: Day) {
    predicate Valid() { first <= last }
    function Days(): int { last - first + 1 }
    predicate Contains(d: Day) { first <= d <= last }
  }

  predicate Present(s: Option<string>) { s.Some? && s.value != "" }

  lemma {:induction false} TwiceInMultiset<T>(xs: seq<T>, i: nat, j: nat)
    requires i < j < |xs| && xs[i] == xs[j]
    ensures multiset(xs)[xs[i]] >= 2
  {
    assert xs == xs[..j] + [xs[j]] + xs[j + 1..];
    assert xs[i] in xs[..j] by {
      assert xs[..j][i] == xs[i];
    }
  }

  lemma {:induction false} PrefixGrows<T>(xs: seq<T>, i: nat)
    requires i < |xs|
    ensures xs[..i + 1] == xs[..i] + [xs[i]] && xs[..i + 1][..i] == xs[..i]
  {
  }
}

/** Real and integer arithmetic shared by the limiter and the analytics layer. */
module Maths {

  function Max(a: real, b: real): real { if a < b then b else a }
  function Min(a: real, b: real): real { if b < a then b else a }
  function Abs(x: real): real { if x < 0.0 then -x else x }
  function AbsInt(x: int): nat { if x < 0 then -x else x }

  /** Round to the nearest integer, ties to the even neighbour (Python's `round`). */
  function RoundHalfEven(x: real): int {
    var low := x.Floor;
    var part := x - low as real;
    if part < 0.5 then low
    else if part > 0.5 then low + 1
    else if low % 2 == 0 then low else low + 1
  }

  lemma {:induction false} RoundError(x: real)
    ensures Abs(RoundHalfEven(x) as real - x) <= 0.5
    ensures x >= 0.0 ==> RoundHalfEven(x) >= 0
  {
  }

  lemma {:induction false} ProductMonotone(a: real, b: real, c: real)
    requires a <= b && c >= 0.0
    ensures a * c <= b * c
  {
    assert (b - a) * c >= 0.0;
  }

  lemma {:induction false} ProductCancel(a: real, b: real, c: real)
    requires a * c >= b * c && c > 0.0
    ensures a >= b
  {
    assert (a - b) * c >= 0.0;
  }

  lemma {:induction false} RoundInteger(n: int)
    ensures RoundHalfEven(n as real) == n
  {
  }

  lemma {:induction false} RoundMonotone(x: real, y: real)
    requires x <= y
    ensures RoundHalfEven(x) <= RoundHalfEven(y)
  {
  }
}

/** The string operations the analytics layer relies on, over code points. */
module Strings {

  predicate StringAtMost(a: string, b: string) {
    a == "" || (b != "" && (a[0] < b[0] || (a[0] == b[0] && StringAtMost(a[1..], b[1..]))))
  }

  lemma {:induction false} StringAtMostTotal(a: string, b: string)
    ensures StringAtMost(a, b) || StringAtMost(b, a)
    ensures StringAtMost(a, b) && StringAtMost(b, a) ==> a == b
  {
    if a != "" && b != "" {
      StringAtMostTotal(a[1..], b[1..]);
      assert a == [a[0]] + a[1..] && b == [b[0]] + b[1..];
    }
  }

  lemma {:induction false} StringAtMostTransitive(a: string, b: string, c: string)
    requires StringAtMost(a, b) && StringAtMost(b, c)
    ensures StringAtMost(a, c)
  {
    if a != "" && a[0] == b[0] == c[0] {
      StringAtMostTransitive(a[1..], b[1..], c[1..]);
    }
  }

  predicate StartsWith(s: string, prefix: string) { prefix <= s }

  predicate Contains(s: string, part: string) {
    part <= s || (s != "" && Contains(s[1..], part))
  }

  /** What follows the last `separator`, or the whole string when there is none. */
  function AfterLast(s: string, separator: char): string {
    if s == "" then ""
    else if separator in s[1..] then AfterLast(s[1..], separator)
    else if s[0] == separator then s[1..]
    else s
  }
}
