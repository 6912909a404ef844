/** The statistics a window of samples is reduced to: the mean, the population
    variance (which the source calls a standard deviation but never takes the
    square root of) and the rounding to one decimal place applied before a value
    is stored. All arithmetic is on exact reals. */
module Stats {
  import opened Js

  /** `array.reduce((a, b) => a + b)`, folding from the left. */
  function Sum(s: seq<int>): int
  {
    if |s| == 0 then 0 else Sum(s[..|s| - 1]) + s[|s| - 1]
  }

  /** `getAverage`: the sum divided by the length. The source's `reduce` without
      an initial value throws on an empty array, hence the precondition. */
  function Average(s: seq<int>): real
    requires |s| > 0
  {
    Sum(s) as real / |s| as real
  }

  /** The sum of `Math.pow(x - m, 2)` over the elements `x` of `s`. */
  function SquaredDeviations(s: seq<int>, m: real): (r: real)
    ensures r >= 0.0
  {
    if |s| == 0 then 0.0
    else
      var d := s[|s| - 1] as real - m;
      SquaredDeviations(s[..|s| - 1], m) + d * d
  }

  /** `getStandardDeviation`: the mean of the squared deviations from the mean,
      that is the population variance, with no square root taken. */
  function Variance(s: seq<int>): (r: real)
    requires |s| > 0
    ensures r >= 0.0
  {
    SquaredDeviations(s, Average(s)) / |s| as real
  }

  /** `Math.round(v * 10) / 10`. */
  function RoundTenth(v: real): real
  {
    Round(v * 10.0) as real / 10.0
  }

  /** `RoundTenth` gives the nearest value on the one-decimal grid, halves
      rounded up. */
  lemma RoundTenthNearest(v: real)
    ensures RoundTenth(v) - 1.0 / 20.0 <= v < RoundTenth(v) + 1.0 / 20.0
    ensures (10.0 * RoundTenth(v)).Floor as real == 10.0 * RoundTenth(v)
  {
  }

  /** A value already on the one-decimal grid is left as it is. */
  lemma RoundTenthIdempotent(v: real)
    ensures RoundTenth(RoundTenth(v)) == RoundTenth(v)
  {
    RoundTenthNearest(v);
    var r := RoundTenth(v);
    var k := (10.0 * r).Floor;
    assert r * 10.0 == k as real;
    RoundUnique(r * 10.0, k);
  }

  lemma {:induction false} SumBounds(s: seq<int>, lo: int, hi: int)
    requires forall k :: 0 <= k < |s| ==> lo <= s[k] <= hi
    ensures |s| * lo <= Sum(s) <= |s| * hi
  {
    if |s| > 0 {
      SumBounds(s[..|s| - 1], lo, hi);
    }
  }

  /** The mean lies between any lower and upper bound of the samples. */
  lemma AverageBounds(s: seq<int>, lo: int, hi: int)
    requires |s| > 0
    requires forall k :: 0 <= k < |s| ==> lo <= s[k] <= hi
    ensures lo as real <= Average(s) <= hi as real
  {
    SumBounds(s, lo, hi);
    var n := |s| as real;
    MulAsReal(|s|, lo);
    MulAsReal(|s|, hi);
    QuotientBounds(Sum(s) as real, n, lo as real, hi as real);
  }

  lemma QuotientBounds(x: real, n: real, lo: real, hi: real)
    requires n > 0.0 && n * lo <= x <= n * hi
    ensures lo <= x / n <= hi
  {
  }

  lemma MulAsReal(a: int, b: int)
    ensures (a * b) as real == a as real * b as real
  {
  }

  lemma {:induction false} SumConstant(s: seq<int>, c: int)
    requires forall k :: 0 <= k < |s| ==> s[k] == c
    ensures Sum(s) == |s| * c
  {
    if |s| > 0 {
      SumConstant(s[..|s| - 1], c);
    }
  }

  lemma {:induction false} SquaredDeviationsOfConstant(s: seq<int>, m: real)
    requires forall k :: 0 <= k < |s| ==> s[k] as real == m
    ensures SquaredDeviations(s, m) == 0.0
  {
    if |s| > 0 {
      SquaredDeviationsOfConstant(s[..|s| - 1], m);
    }
  }

  /** A window of identical samples has that sample as its mean and zero
      variance. */
  lemma ConstantWindow(s: seq<int>, c: int)
    requires |s| > 0
    requires forall k :: 0 <= k < |s| ==> s[k] == c
    ensures Average(s) == c as real
    ensures Variance(s) == 0.0
  {
    SumConstant(s, c);
    MulAsReal(|s|, c);
    SquaredDeviationsOfConstant(s, c as real);
  }

  /** Five heart rates 60, 62, ..., 68: mean 64 and variance 8, both already
      on the one-decimal grid. */
  lemma FiveSampleExample()
    ensures Average([60, 62, 64, 66, 68]) == 64.0
    ensures Variance([60, 62, 64, 66, 68]) == 8.0
    ensures RoundTenth(64.0) == 64.0 && RoundTenth(8.0) == 8.0
  {
    var s := [60, 62, 64, 66, 68];
    assert [60][..0] == [];
    assert [60, 62][..1] == [60];
    assert [60, 62, 64][..2] == [60, 62];
    assert [60, 62, 64, 66][..3] == [60, 62, 64];
    assert s[..4] == [60, 62, 64, 66];
    assert Sum([60]) == 60;
    assert Sum([60, 62]) == 122;
    assert Sum([60, 62, 64]) == 186;
    assert Sum([60, 62, 64, 66]) == 252;
    assert Sum(s) == 320;
    assert Average(s) == 64.0;
    assert SquaredDeviations([60], 64.0) == 16.0;
    assert SquaredDeviations([60, 62], 64.0) == 20.0;
    assert SquaredDeviations([60, 62, 64], 64.0) == 20.0;
    assert SquaredDeviations([60, 62, 64, 66], 64.0) == 24.0;
    assert SquaredDeviations(s, 64.0) == 40.0;
    RoundUnique(640.0, 640);
    RoundUnique(80.0, 80);
  }
}
