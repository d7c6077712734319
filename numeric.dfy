/**
 * Python's `round(x, n)`, `sum`, `min` and `max` over exact reals.
 * On an exact value `round` rounds half to even at the n-th decimal.
 */
module Numeric {

  /** The integer nearest to `y`, ties going to the even neighbour. */
  function RoundHalfEven(y: real): (n: int)
    ensures y - 0.5 <= n as real <= y + 0.5
  {
    var f := y.Floor;
    var frac := y - f as real;
    if frac < 0.5 then f
    else if frac > 0.5 then f + 1
    else if f % 2 == 0 then f else f + 1
  }

  /**
   * `round(x, digits)` where `scale` is 10^digits: the nearest multiple of
   * 1/scale, within half a unit of `x` in the last kept decimal place.
   */
  function RoundAt(x: real, scale: real): (r: real)
    requires scale >= 1.0
    ensures x * scale - 0.5 <= r * scale <= x * scale + 0.5
  {
    var n := RoundHalfEven(x * scale);
    DivideThenScale(n as real, scale);
    var r := n as real / scale;
    assert r * scale == n as real;
    assert x * scale - 0.5 <= n as real <= x * scale + 0.5;
    r
  }

  lemma DivideThenScale(a: real, scale: real)
    requires scale > 0.0
    ensures (a / scale) * scale == a
  {
  }

  /** `round(x, 1)`, `round(x, 2)` and `round(x, 4)`. */
  function Round1(x: real): real { RoundAt(x, 10.0) }
  function Round2(x: real): real { RoundAt(x, 100.0) }
  function Round4(x: real): real { RoundAt(x, 10000.0) }

  lemma {:induction false} RoundHalfEvenMonotone(x: real, y: real)
    requires x <= y
    ensures RoundHalfEven(x) <= RoundHalfEven(y)
  {
    var fx, fy := x.Floor, y.Floor;
    assert fx <= fy;
    if fx == fy {
      assert x - fx as real <= y - fy as real;
    }
  }

  lemma ScaleMonotone(x: real, y: real, p: real)
    requires x <= y && p > 0.0
    ensures x * p <= y * p
  {
  }

  lemma DivideMonotone(x: real, y: real, p: real)
    requires x <= y && p > 0.0
    ensures x / p <= y / p
  {
  }

  /** Rounding never reverses the order of two values. */
  lemma {:induction false} RoundAtMonotone(x: real, y: real, scale: real)
    requires x <= y && scale >= 1.0
    ensures RoundAt(x, scale) <= RoundAt(y, scale)
  {
    ScaleMonotone(x, y, scale);
    RoundHalfEvenMonotone(x * scale, y * scale);
    DivideMonotone(RoundHalfEven(x * scale) as real, RoundHalfEven(y * scale) as real, scale);
  }

  /** Zero and a hundred (a full percentage) are kept exactly at one and two decimals. */
  lemma RoundExactValues()
    ensures Round1(0.0) == 0.0 && Round2(0.0) == 0.0 && Round2(100.0) == 100.0
  {
  }

  /** A whole number is kept exactly at two decimals. */
  lemma RoundWhole(n: int)
    ensures Round2(n as real) == n as real
  {
    assert (n as real * 100.0).Floor == n * 100;
  }

  /** `sum(xs)` */
  function Sum(xs: seq<real>): real {
    if xs == [] then 0.0 else Sum(xs[..|xs| - 1]) + xs[|xs| - 1]
  }

  /** `min(xs)`: an element of `xs` no greater than any other. */
  function Min(xs: seq<real>): (m: real)
    requires |xs| > 0
    ensures m in xs
    ensures forall i :: 0 <= i < |xs| ==> m <= xs[i]
  {
    if |xs| == 1 then xs[0]
    else
      var m := Min(xs[..|xs| - 1]);
      assert forall i :: 0 <= i < |xs| - 1 ==> xs[..|xs| - 1][i] == xs[i];
      if xs[|xs| - 1] < m then xs[|xs| - 1] else m
  }

  /** `max(xs)`: an element of `xs` no smaller than any other. */
  function Max(xs: seq<real>): (m: real)
    requires |xs| > 0
    ensures m in xs
    ensures forall i :: 0 <= i < |xs| ==> xs[i] <= m
  {
    if |xs| == 1 then xs[0]
    else
      var m := Max(xs[..|xs| - 1]);
      assert forall i :: 0 <= i < |xs| - 1 ==> xs[..|xs| - 1][i] == xs[i];
      if xs[|xs| - 1] > m then xs[|xs| - 1] else m
  }

  /** A sum of positive values is positive, with a bound on each side by count times the extremes. */
  lemma {:induction false} SumBounds(xs: seq<real>, lo: real, hi: real)
    requires forall i :: 0 <= i < |xs| ==> lo <= xs[i] <= hi
    ensures |xs| as real * lo <= Sum(xs) <= |xs| as real * hi
  {
    if xs != [] {
      var init := xs[..|xs| - 1];
      assert forall i :: 0 <= i < |init| ==> init[i] == xs[i];
      SumBounds(init, lo, hi);
      assert |init| as real * lo + lo == |xs| as real * lo;
      assert |init| as real * hi + hi == |xs| as real * hi;
    }
  }

  /** A sum of non-negative values is at least each of them. */
  lemma {:induction false} SumAtLeastMember(xs: seq<real>, i: nat)
    requires forall j :: 0 <= j < |xs| ==> xs[j] >= 0.0
    requires i < |xs|
    ensures Sum(xs) >= xs[i]
  {
    var init := xs[..|xs| - 1];
    assert forall j :: 0 <= j < |init| ==> init[j] == xs[j];
    if |init| > 0 {
      SumBounds(init, 0.0, Max(init));
    }
    if i < |xs| - 1 {
      SumAtLeastMember(init, i);
    }
  }

  /** The mean of values lying between two bounds lies between them too. */
  lemma MeanBetween(xs: seq<real>, lo: real, hi: real)
    requires |xs| > 0
    requires forall i :: 0 <= i < |xs| ==> lo <= xs[i] <= hi
    ensures lo <= Sum(xs) / |xs| as real <= hi
  {
    SumBounds(xs, lo, hi);
    QuotientBetween(Sum(xs), |xs| as real, lo, hi);
  }

  lemma QuotientBetween(s: real, n: real, lo: real, hi: real)
    requires n > 0.0 && n * lo <= s <= n * hi
    ensures lo <= s / n <= hi
  {
    var q := s / n;
    assert q * n == s;
    if q < lo {
      ScaleMonotone(q, lo, n);
    }
    if q > hi {
      ScaleMonotone(hi, q, n);
    }
  }
}
