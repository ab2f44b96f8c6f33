/**
 * Elementwise numeric helpers shared by the mineral pipeline: the numpy
 * reductions and clipping it relies on, over mathematical reals.
 * Arrays are flat, row-major sequences; NaN never arises over reals, so
 * `nanmax`/`nanmean` are plain maximum and mean.
 */
module Reals {

  datatype Option<T> = None | Some(value: T)

  /** `np.clip` on one element: the result lies in [lo, hi] and is `x` itself when `x` already does. */
  function Clip(x: real, lo: real, hi: real): (r: real)
    requires lo <= hi
    ensures lo <= r <= hi
    ensures lo <= x <= hi ==> r == x
    ensures x < lo ==> r == lo
    ensures hi < x ==> r == hi
  {
    if x < lo then lo else if hi < x then hi else x
  }

  /** Clipping preserves order. */
  lemma ClipMonotone(x: real, y: real, lo: real, hi: real)
    requires lo <= hi && x <= y
    ensures Clip(x, lo, hi) <= Clip(y, lo, hi)
  {
  }

  /** `np.nanmax` of a non-empty array: an element of the array that bounds every element. */
  function Max(s: seq<real>): (m: real)
    requires |s| > 0
    ensures m in s
    ensures forall i :: 0 <= i < |s| ==> s[i] <= m
  {
    if |s| == 1 then s[0]
    else
      var rest := Max(s[1..]);
      if s[0] >= rest then s[0] else rest
  }

  function Sum(s: seq<real>): real
  {
    if s == [] then 0.0 else s[0] + Sum(s[1..])
  }

  /** `np.nanmean` of a non-empty array. */
  function Mean(s: seq<real>): (r: real)
    requires |s| > 0
    ensures r * (|s| as real) == Sum(s)
  {
    Sum(s) / (|s| as real)
  }

  /** A sum of values each at most `b` is at most `|s| * b`. */
  lemma {:induction false} SumAtMost(s: seq<real>, b: real)
    requires forall i :: 0 <= i < |s| ==> s[i] <= b
    ensures Sum(s) <= (|s| as real) * b
  {
    if s != [] {
      SumAtMost(s[1..], b);
    }
  }

  /** A sum of values each at least `b` is at least `|s| * b`. */
  lemma {:induction false} SumAtLeast(s: seq<real>, b: real)
    requires forall i :: 0 <= i < |s| ==> b <= s[i]
    ensures (|s| as real) * b <= Sum(s)
  {
    if s != [] {
      SumAtLeast(s[1..], b);
    }
  }

  /** The mean of a non-empty array never exceeds its maximum. */
  lemma {:induction false} MeanAtMostMax(s: seq<real>)
    requires |s| > 0
    ensures Mean(s) <= Max(s)
  {
    var m := Max(s);
    SumAtMost(s, m);
    DivAtMost(Sum(s), |s| as real, m);
    assert Mean(s) == Sum(s) / (|s| as real);
  }

  /** The mean of an array whose values lie in [lo, hi] lies in [lo, hi]. */
  lemma {:induction false} MeanWithin(s: seq<real>, lo: real, hi: real)
    requires |s| > 0
    requires forall i :: 0 <= i < |s| ==> lo <= s[i] <= hi
    ensures lo <= Mean(s) <= hi
  {
    SumAtMost(s, hi);
    SumAtLeast(s, lo);
    DivAtMost(Sum(s), |s| as real, hi);
    DivAtLeast(Sum(s), |s| as real, lo);
  }

  lemma DivAtMost(a: real, n: real, b: real)
    requires n > 0.0 && a <= n * b
    ensures a / n <= b
  {
    assert a / n == a * (1.0 / n);
    assert n * b * (1.0 / n) == b;
  }

  lemma DivAtLeast(a: real, n: real, b: real)
    requires n > 0.0 && n * b <= a
    ensures b <= a / n
  {
    assert a / n == a * (1.0 / n);
    assert n * b * (1.0 / n) == b;
  }
}
