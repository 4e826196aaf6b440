/** Arithmetic helpers, foremost weighted sums over sequences: the counting used by the
    concurrency invariants and by the decreasing measures. */
module Sums {

  function Min(a: nat, b: nat): nat { if a <= b then a else b }

  function Max(a: nat, b: nat): nat { if a >= b then a else b }

  function Sum<T>(xs: seq<T>, w: T -> nat): nat {
    if xs == [] then 0 else w(xs[0]) + Sum(xs[1..], w)
  }

  /** Replacing one element changes the sum by the difference of the two weights. */
  lemma {:induction false} SumUpdate<T>(xs: seq<T>, w: T -> nat, i: nat, y: T)
    requires i < |xs|
    ensures Sum(xs[i := y], w) == Sum(xs, w) - w(xs[i]) + w(y)
    ensures w(xs[i]) <= Sum(xs, w)
  {
    if i == 0 {
      assert xs[0 := y][1..] == xs[1..];
    } else {
      assert xs[i := y][1..] == xs[1..][i - 1 := y];
      SumUpdate(xs[1..], w, i - 1, y);
    }
  }

  lemma {:induction false} SumAppend<T>(xs: seq<T>, w: T -> nat, y: T)
    ensures Sum(xs + [y], w) == Sum(xs, w) + w(y)
  {
    if xs == [] {
      assert xs + [y] == [y];
    } else {
      assert (xs + [y])[1..] == xs[1..] + [y];
      SumAppend(xs[1..], w, y);
    }
  }

  /** A positive sum has a positive term. */
  lemma {:induction false} SumPositive<T>(xs: seq<T>, w: T -> nat) returns (i: nat)
    requires Sum(xs, w) > 0
    ensures i < |xs| && w(xs[i]) > 0
  {
    if w(xs[0]) > 0 {
      i := 0;
    } else {
      i := SumPositive(xs[1..], w);
      i := i + 1;
    }
  }

  /** Element-wise domination carries over to the sums. */
  lemma {:induction false} SumMonotone<T>(xs: seq<T>, ys: seq<T>, v: T -> nat, w: T -> nat)
    requires |xs| == |ys|
    requires forall i | 0 <= i < |xs| :: v(xs[i]) <= w(ys[i])
    ensures Sum(xs, v) <= Sum(ys, w)
  {
    if xs != [] {
      SumMonotone(xs[1..], ys[1..], v, w);
    }
  }

  /** If every term is zero, so is the sum. */
  lemma {:induction false} SumZero<T>(xs: seq<T>, w: T -> nat)
    requires forall i | 0 <= i < |xs| :: w(xs[i]) == 0
    ensures Sum(xs, w) == 0
  {
    if xs != [] {
      SumZero(xs[1..], w);
    }
  }

  /** The sum is bounded by the length times a bound on the terms. */
  lemma {:induction false} SumBound<T>(xs: seq<T>, w: T -> nat)
    requires forall i | 0 <= i < |xs| :: w(xs[i]) <= 1
    ensures Sum(xs, w) <= |xs|
  {
    if xs != [] {
      SumBound(xs[1..], w);
    }
  }

  /** Occurrences of an element. */
  function Count<T(==)>(xs: seq<T>, x: T): nat {
    if xs == [] then 0 else (if xs[0] == x then 1 else 0) + Count(xs[1..], x)
  }

  lemma {:induction false} CountAppend<T>(xs: seq<T>, y: T, x: T)
    ensures Count(xs + [y], x) == Count(xs, x) + if y == x then 1 else 0
  {
    if xs == [] {
      assert xs + [y] == [y];
    } else {
      assert (xs + [y])[1..] == xs[1..] + [y];
      CountAppend(xs[1..], y, x);
    }
  }

  lemma {:induction false} CountConcat<T>(xs: seq<T>, ys: seq<T>, x: T)
    ensures Count(xs + ys, x) == Count(xs, x) + Count(ys, x)
  {
    if xs == [] {
      assert xs + ys == ys;
    } else {
      assert (xs + ys)[1..] == xs[1..] + ys;
      CountConcat(xs[1..], ys, x);
    }
  }
}
