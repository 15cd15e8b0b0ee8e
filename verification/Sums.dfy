/** Finite sums, for termination measures. */
module Sums {

  function Sum(xs: seq<int>): int
  {
    if xs == [] then 0 else Sum(xs[..|xs| - 1]) + xs[|xs| - 1]
  }

  lemma {:induction false} SumUpdate(xs: seq<int>, i: nat, x: int)
    requires i < |xs|
    ensures Sum(xs[i := x]) == Sum(xs) - xs[i] + x
    decreases |xs|
  {
    var front, last := xs[..|xs| - 1], |xs| - 1;
    if i == last {
      assert xs[i := x][..last] == front;
    } else {
      SumUpdate(front, i, x);
      assert xs[i := x][..last] == front[i := x];
    }
  }

  /** Two sums that differ in one term only. */
  lemma SumChange(xs: seq<int>, ys: seq<int>, i: nat)
    requires i < |xs| == |ys| && forall k :: 0 <= k < |xs| && k != i ==> xs[k] == ys[k]
    ensures Sum(ys) == Sum(xs) - xs[i] + ys[i]
  {
    SumUpdate(xs, i, ys[i]);
    assert ys == xs[i := ys[i]];
  }

  lemma {:induction false} SumNonNegative(xs: seq<int>)
    requires forall k :: 0 <= k < |xs| ==> xs[k] >= 0
    ensures Sum(xs) >= 0
    decreases |xs|
  {
    if xs != [] {
      SumNonNegative(xs[..|xs| - 1]);
    }
  }

  lemma {:induction false} SumZero(xs: seq<int>)
    requires forall k :: 0 <= k < |xs| ==> xs[k] == 0
    ensures Sum(xs) == 0
    decreases |xs|
  {
    if xs != [] {
      SumZero(xs[..|xs| - 1]);
    }
  }
}
