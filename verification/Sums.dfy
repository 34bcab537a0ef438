/** Sums of weights over a sequence. The concurrent models use them to relate a
    stored counter to the references actually held. */
module Sums {

  ghost function Sum<T>(xs: seq<T>, w: T -> nat): nat {
    if |xs| == 0 then 0 else Sum(xs[..|xs| - 1], w) + w(xs[|xs| - 1])
  }

  lemma {:induction false} SumAppend<T>(xs: seq<T>, x: T, w: T -> nat)
    ensures Sum(xs + [x], w) == Sum(xs, w) + w(x)
  {
    assert (xs + [x])[..|xs|] == xs;
  }

  lemma {:induction false} SumUpdate<T>(xs: seq<T>, k: nat, x: T, w: T -> nat)
    requires k < |xs|
    ensures Sum(xs[k := x], w) + w(xs[k]) == Sum(xs, w) + w(x)
  {
    var ys := xs[k := x];
    if k == |xs| - 1 {
      assert ys[..k] == xs[..k];
    } else {
      assert ys[..|xs| - 1] == xs[..|xs| - 1][k := x];
      SumUpdate(xs[..|xs| - 1], k, x, w);
    }
  }

  lemma {:induction false} SumMember<T>(xs: seq<T>, k: nat, w: T -> nat)
    requires k < |xs|
    ensures w(xs[k]) <= Sum(xs, w)
  {
    if k < |xs| - 1 {
      SumMember(xs[..|xs| - 1], k, w);
    }
  }

  lemma {:induction false} SumTwo<T>(xs: seq<T>, j: nat, k: nat, w: T -> nat)
    requires j < k < |xs|
    ensures w(xs[j]) + w(xs[k]) <= Sum(xs, w)
  {
    if k < |xs| - 1 {
      SumTwo(xs[..|xs| - 1], j, k, w);
    } else {
      SumMember(xs[..k], j, w);
    }
  }

  lemma {:induction false} SumZero<T>(xs: seq<T>, w: T -> nat)
    requires forall k | 0 <= k < |xs| :: w(xs[k]) == 0
    ensures Sum(xs, w) == 0
  {
    if |xs| > 0 {
      SumZero(xs[..|xs| - 1], w);
    }
  }

  /** A positive sum has a positive term. */
  lemma {:induction false} SumPositive<T>(xs: seq<T>, w: T -> nat) returns (k: nat)
    requires Sum(xs, w) > 0
    ensures k < |xs| && w(xs[k]) > 0
  {
    if w(xs[|xs| - 1]) > 0 {
      k := |xs| - 1;
    } else {
      k := SumPositive(xs[..|xs| - 1], w);
    }
  }
}
