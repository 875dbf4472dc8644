/** Sums of a weight over a sequence. */
module Sums {

  function Sum<T>(xs: seq<T>, f: T -> nat): nat {
    if xs == [] then 0 else Sum(xs[..|xs| - 1], f) + f(xs[|xs| - 1])
  }

  lemma SumAppend<T>(xs: seq<T>, x: T, f: T -> nat)
    ensures Sum(xs + [x], f) == Sum(xs, f) + f(x)
  {
    assert (xs + [x])[..|xs|] == xs;
  }

  lemma {:induction false} SumUpdate<T>(xs: seq<T>, i: nat, x: T, f: T -> nat)
    requires i < |xs|
    ensures Sum(xs[i := x], f) + f(xs[i]) == Sum(xs, f) + f(x)
    ensures f(xs[i]) <= Sum(xs, f)
  {
    var init := xs[..|xs| - 1];
    if i == |xs| - 1 {
      assert xs[i := x][..|xs| - 1] == init;
    } else {
      assert xs[i := x][..|xs| - 1] == init[i := x];
      SumUpdate(init, i, x, f);
    }
  }

  lemma {:induction false} SumPositive<T>(xs: seq<T>, f: T -> nat) returns (i: nat)
    requires Sum(xs, f) > 0
    ensures i < |xs| && f(xs[i]) > 0
  {
    if f(xs[|xs| - 1]) > 0 {
      i := |xs| - 1;
    } else {
      i := SumPositive(xs[..|xs| - 1], f);
    }
  }

  lemma {:induction false} SumZero<T>(xs: seq<T>, f: T -> nat)
    requires forall i :: 0 <= i < |xs| ==> f(xs[i]) == 0
    ensures Sum(xs, f) == 0
  {
    if xs != [] {
      SumZero(xs[..|xs| - 1], f);
    }
  }

  lemma {:induction false} SumSingle<T>(xs: seq<T>, b: nat, f: T -> nat)
    requires b < |xs| && forall i :: 0 <= i < |xs| && i != b ==> f(xs[i]) == 0
    ensures Sum(xs, f) == f(xs[b])
  {
    if b == |xs| - 1 {
      SumZero(xs[..b], f);
    } else {
      SumSingle(xs[..|xs| - 1], b, f);
    }
  }

  lemma {:induction false} SumBounded<T>(xs: seq<T>, f: T -> nat, g: T -> nat, k: nat)
    requires forall i :: 0 <= i < |xs| ==> f(xs[i]) <= k * g(xs[i])
    ensures Sum(xs, f) <= k * Sum(xs, g)
  {
    if xs != [] {
      var init, last := xs[..|xs| - 1], xs[|xs| - 1];
      SumBounded(init, f, g, k);
      assert k * (Sum(init, g) + g(last)) == k * Sum(init, g) + k * g(last);
    }
  }

  lemma {:induction false} SumSplit<T>(xs: seq<T>, f: T -> nat, g: T -> nat, h: T -> nat, k: T -> nat)
    requires forall i :: 0 <= i < |xs| ==> f(xs[i]) == g(xs[i]) + h(xs[i]) + k(xs[i])
    ensures Sum(xs, f) == Sum(xs, g) + Sum(xs, h) + Sum(xs, k)
  {
    if xs != [] {
      SumSplit(xs[..|xs| - 1], f, g, h, k);
    }
  }

  lemma MulMono(k: nat, x: nat, y: nat)
    requires x <= y
    ensures k * x <= k * y
  {}

  lemma Distribute(a: nat, b: nat, k: nat)
    ensures (a + b) * k == a * k + b * k
  {}
}
