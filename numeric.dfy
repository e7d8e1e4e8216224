/** Sums, means and decimal rounding over `real`, for the score formulas. */
module Numeric {

  function Sum(xs: seq<real>): real
    decreases |xs|
  {
    if xs == [] then 0.0 else Sum(xs[..|xs| - 1]) + xs[|xs| - 1]
  }

  predicate AllIn(xs: seq<real>, lo: real, hi: real) {
    forall k :: 0 <= k < |xs| ==> lo <= xs[k] <= hi
  }

  /** A sum of `n` values in `[lo, hi]` lies in `[n·lo, n·hi]`. */
  lemma {:induction false} SumBounds(xs: seq<real>, lo: real, hi: real)
    requires AllIn(xs, lo, hi)
    ensures |xs| as real * lo <= Sum(xs) <= |xs| as real * hi
    decreases |xs|
  {
    if xs != [] {
      SumBounds(xs[..|xs| - 1], lo, hi);
    }
  }

  lemma {:induction false} SumAppend(xs: seq<real>, x: real)
    ensures Sum(xs + [x]) == Sum(xs) + x
  {
    assert (xs + [x])[..|xs|] == xs;
  }

  /** The arithmetic mean of a non-empty list (`numpy.mean`, or a sum over a length). */
  function Mean(xs: seq<real>): real
    requires |xs| > 0
  {
    Sum(xs) / |xs| as real
  }

  /** The mean of values in `[lo, hi]` is in `[lo, hi]`. */
  lemma MeanBounds(xs: seq<real>, lo: real, hi: real)
    requires |xs| > 0 && AllIn(xs, lo, hi)
    ensures lo <= Mean(xs) <= hi
  {
    SumBounds(xs, lo, hi);
    var n := |xs| as real;
    assert Sum(xs) / n >= lo by { assert Sum(xs) >= n * lo; }
    assert Sum(xs) / n <= hi by { assert Sum(xs) <= n * hi; }
  }

  /** Rounds to `10^-digits`-multiples, halves upwards. */
  function RoundTo(x: real, scale: real): (r: real)
    requires scale >= 1.0
    ensures x - 0.5 / scale < r <= x + 0.5 / scale
  {
    var k := (x * scale + 0.5).Floor;
    assert k as real <= x * scale + 0.5 < k as real + 1.0;
    assert (k as real) / scale <= (x * scale + 0.5) / scale;
    assert (x * scale + 0.5) / scale < (k as real + 1.0) / scale;
    k as real / scale
  }

  /** `round(x, 1)`: the nearest multiple of 0.1, within 0.05 of `x`. */
  function Round1(x: real): (r: real)
    ensures x - 0.05 < r <= x + 0.05
  {
    RoundTo(x, 10.0)
  }

  /** `round(x, 3)`: the nearest multiple of 0.001, within 0.0005 of `x`. */
  function Round3(x: real): (r: real)
    ensures x - 0.0005 < r <= x + 0.0005
  {
    RoundTo(x, 1000.0)
  }

  /** Rounding to one decimal keeps a score in `[0, 100]`. */
  lemma Round1Bounds(x: real)
    requires 0.0 <= x <= 100.0
    ensures 0.0 <= Round1(x) <= 100.0
  {
    var k := (x * 10.0 + 0.5).Floor;
    assert 0 <= k <= 1000;
  }

  /** Rounding to one decimal is monotone. */
  lemma Round1Monotone(x: real, y: real)
    requires x <= y
    ensures Round1(x) <= Round1(y)
  {
    var kx := (x * 10.0 + 0.5).Floor;
    var ky := (y * 10.0 + 0.5).Floor;
    assert kx <= ky by {
      assert kx as real <= x * 10.0 + 0.5 <= y * 10.0 + 0.5 < ky as real + 1.0;
    }
  }

  /** Values that already have one decimal are left alone. */
  lemma Round1Exact(k: int)
    ensures Round1(k as real / 10.0) == k as real / 10.0
  {
    var x := k as real / 10.0;
    assert x * 10.0 + 0.5 == k as real + 0.5;
    assert (x * 10.0 + 0.5).Floor == k;
  }
}
