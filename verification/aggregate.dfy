/**
 Frame-level aggregates of the rice inspector (detect.py:136-145): the mean
 grain length converted to millimetres, and the integer quality percentage.
 Lengths are exact reals here; the source's floating-point arithmetic and
 its two-decimal rounding are not modelled.
 */
module Aggregate {

  function Sum(s: seq<real>): real {
    if |s| == 0 then 0.0 else s[0] + Sum(s[1..])
  }

  /** The smallest sample. */
  function MinSample(s: seq<real>): (m: real)
    requires |s| > 0
    ensures m in s
    ensures forall i :: 0 <= i < |s| ==> m <= s[i]
  {
    if |s| == 1 then s[0]
    else
      var rest := MinSample(s[1..]);
      if s[0] <= rest then s[0] else rest
  }

  /** The largest sample. */
  function MaxSample(s: seq<real>): (m: real)
    requires |s| > 0
    ensures m in s
    ensures forall i :: 0 <= i < |s| ==> s[i] <= m
  {
    if |s| == 1 then s[0]
    else
      var rest := MaxSample(s[1..]);
      if s[0] >= rest then s[0] else rest
  }

  /** Every sample lies in [lo, hi], so the sum lies in [n*lo, n*hi]. */
  lemma {:induction false} SumBetween(s: seq<real>, lo: real, hi: real)
    requires forall i :: 0 <= i < |s| ==> lo <= s[i] <= hi
    ensures |s| as real * lo <= Sum(s) <= |s| as real * hi
    decreases |s|
  {
    if |s| > 0 {
      SumBetween(s[1..], lo, hi);
      assert lo <= s[0] <= hi;
    }
  }

  /** The unrounded mean pixel length, `sum(lengths) / len(lengths)`. */
  function Mean(s: seq<real>): real
    requires |s| > 0
  {
    Sum(s) / |s| as real
  }

  /** The mean of the samples lies between the smallest and the largest. */
  lemma MeanBetweenExtremes(s: seq<real>)
    requires |s| > 0
    ensures MinSample(s) <= Mean(s) <= MaxSample(s)
  {
    MeanBetween(s, MinSample(s), MaxSample(s));
  }

  lemma MeanBetween(s: seq<real>, lo: real, hi: real)
    requires |s| > 0
    requires forall i :: 0 <= i < |s| ==> lo <= s[i] <= hi
    ensures lo <= Mean(s) <= hi
  {
    SumBetween(s, lo, hi);
    QuotientBetween(Sum(s), |s| as real, lo, hi);
  }

  lemma QuotientBetween(total: real, n: real, lo: real, hi: real)
    requires n > 0.0
    requires n * lo <= total <= n * hi
    ensures lo <= total / n <= hi
  {
    assert total / n - lo == (total - n * lo) / n;
    assert hi - total / n == (n * hi - total) / n;
  }

  /**
   The average grain length in millimetres: 0.0 when no grain was measured,
   so nothing is divided; otherwise the mean pixel length divided by the
   calibration factor.
   */
  function AvgLengthMm(s: seq<real>, pixelsPerMm: real): (mm: real)
    requires pixelsPerMm > 0.0
    ensures |s| == 0 ==> mm == 0.0
    ensures |s| > 0 ==> mm * pixelsPerMm * |s| as real == Sum(s)
  {
    if |s| > 0 then Mean(s) / pixelsPerMm else 0.0
  }

  /** The averaged length in millimetres lies between the shortest and the
      longest grain, each converted to millimetres. */
  lemma AvgLengthBetweenExtremes(s: seq<real>, pixelsPerMm: real)
    requires pixelsPerMm > 0.0
    requires |s| > 0
    ensures MinSample(s) / pixelsPerMm <= AvgLengthMm(s, pixelsPerMm) <= MaxSample(s) / pixelsPerMm
  {
    MeanBetweenExtremes(s);
    DivideMonotone(MinSample(s), Mean(s), pixelsPerMm);
    DivideMonotone(Mean(s), MaxSample(s), pixelsPerMm);
  }

  lemma DivideMonotone(a: real, b: real, d: real)
    requires d > 0.0
    requires a <= b
    ensures a / d <= b / d
  {
    assert b / d - a / d == (b - a) / d;
  }

  /**
   `int((whole / total) * 100)` with `total = whole + broken`, or 0 when
   there is no rice grain at all, computed in exact integer arithmetic.
   */
  function Quality(whole: nat, broken: nat): (q: nat)
    ensures whole + broken == 0 ==> q == 0
    ensures whole + broken > 0 ==>
              q * (whole + broken) <= 100 * whole < (q + 1) * (whole + broken)
    ensures q <= 100
    ensures whole + broken > 0 ==> (q == 100 <==> broken == 0)
  {
    var total := whole + broken;
    if total > 0 then
      QualityBounds(whole, broken);
      (100 * whole) / total
    else 0
  }

  lemma QualityBounds(whole: nat, broken: nat)
    requires whole + broken > 0
    ensures var q := (100 * whole) / (whole + broken);
            && q * (whole + broken) <= 100 * whole < (q + 1) * (whole + broken)
            && 0 <= q <= 100
            && (q == 100 <==> broken == 0)
  {
    var total := whole + broken;
    var q := (100 * whole) / total;
    FloorDivision(100 * whole, total);
    assert q * total <= 100 * total;
    CancelFactor(q, 100, total);
    if broken == 0 {
      assert 100 * total == 100 * whole < (q + 1) * total;
      CancelFactorStrict(100, q + 1, total);
    }
    if q == 100 {
      assert total * 100 <= whole * 100;
    }
  }

  /** Euclidean division of a natural number: quotient times divisor is at most
      the dividend, and one more multiple exceeds it. */
  lemma FloorDivision(a: nat, d: int)
    requires d > 0
    ensures (a / d) * d <= a < (a / d + 1) * d
  {
  }

  lemma CancelFactor(a: int, b: int, c: int)
    requires c > 0
    requires a * c <= b * c
    ensures a <= b
  {
  }

  lemma CancelFactorStrict(a: int, b: int, c: int)
    requires c > 0
    requires a * c < b * c
    ensures a < b
  {
  }
}
