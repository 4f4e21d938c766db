/**
 * The two functions of Python's `statistics` module that the alert core
 * calls, on exact reals: `mean` and the sample variance behind `stdev`
 * (Bessel's correction, divisor n - 1). The square root that `stdev` takes
 * last is not modelled; IsSampleStdev says what a standard deviation is,
 * and SquareMonotone is what lets a caller compare squares instead.
 */
module Statistics {

  function Square(x: real): real
  {
    x * x
  }

  function Sum(xs: seq<real>): real
  {
    if |xs| == 0 then 0.0 else xs[0] + Sum(xs[1..])
  }

  /** The arithmetic mean of a non-empty series. */
  function Mean(xs: seq<real>): (r: real)
    requires |xs| > 0
    ensures r * |xs| as real == Sum(xs)
  {
    Sum(xs) / |xs| as real
  }

  /** The sum of squared deviations of the series from `m`. */
  function SumSqDev(xs: seq<real>, m: real): (r: real)
    ensures r >= 0.0
  {
    if |xs| == 0 then 0.0
    else
      SquareNonNegative(xs[0] - m);
      Square(xs[0] - m) + SumSqDev(xs[1..], m)
  }

  /** The sample variance: squared deviations from the mean over n - 1. */
  function SampleVariance(xs: seq<real>): (r: real)
    requires |xs| >= 2
    ensures r >= 0.0
  {
    SumSqDev(xs, Mean(xs)) / (|xs| - 1) as real
  }

  /** `sd` is the sample standard deviation of `xs`: the non-negative square
      root of its sample variance. */
  ghost predicate IsSampleStdev(sd: real, xs: seq<real>)
    requires |xs| >= 2
  {
    sd >= 0.0 && Square(sd) == SampleVariance(xs)
  }

  /** At most one number is the sample standard deviation of a series, so
      IsSampleStdev pins down what `stdev` returns. */
  lemma SampleStdevUnique(xs: seq<real>, a: real, b: real)
    requires |xs| >= 2
    requires IsSampleStdev(a, xs) && IsSampleStdev(b, xs)
    ensures a == b
  {
    SquareMonotone(a, b);
    SquareMonotone(b, a);
  }

  lemma {:induction false} SumBounds(xs: seq<real>, lo: real, hi: real)
    requires forall i :: 0 <= i < |xs| ==> lo <= xs[i] <= hi
    ensures |xs| as real * lo <= Sum(xs) <= |xs| as real * hi
  {
    if |xs| > 0 {
      SumBounds(xs[1..], lo, hi);
    }
  }

  /** The mean lies between any lower and upper bound of the series. */
  lemma MeanBounds(xs: seq<real>, lo: real, hi: real)
    requires |xs| > 0
    requires forall i :: 0 <= i < |xs| ==> lo <= xs[i] <= hi
    ensures lo <= Mean(xs) <= hi
  {
    SumBounds(xs, lo, hi);
    var n := |xs| as real;
    assert Mean(xs) - lo == (Sum(xs) - n * lo) / n;
    assert hi - Mean(xs) == (n * hi - Sum(xs)) / n;
  }

  /** The squared deviations sum to zero exactly when every element is `m`. */
  lemma {:induction false} SumSqDevZero(xs: seq<real>, m: real)
    ensures SumSqDev(xs, m) == 0.0 <==> forall i :: 0 <= i < |xs| ==> xs[i] == m
  {
    if |xs| > 0 {
      var d, rest := xs[0] - m, xs[1..];
      SumSqDevZero(rest, m);
      assert SumSqDev(xs, m) == Square(d) + SumSqDev(rest, m);
      if d != 0.0 {
        SquarePositive(d);
      }
      assert (forall i :: 0 <= i < |xs| ==> xs[i] == m)
         <==> d == 0.0 && forall i :: 0 <= i < |rest| ==> rest[i] == m
      by {
        assert forall i :: 1 <= i < |xs| ==> xs[i] == rest[i - 1];
      }
    }
  }

  /** The sample variance is zero exactly when the series is constant. */
  lemma VarianceZero(xs: seq<real>)
    requires |xs| >= 2
    ensures SampleVariance(xs) == 0.0 <==> forall i :: 0 <= i < |xs| ==> xs[i] == xs[0]
  {
    var m := Mean(xs);
    SumSqDevZero(xs, m);
    if forall i :: 0 <= i < |xs| ==> xs[i] == xs[0] {
      MeanBounds(xs, xs[0], xs[0]);
    }
  }

  lemma ProductPositive(x: real, y: real)
    requires x > 0.0 && y > 0.0
    ensures x * y > 0.0
  {
  }

  lemma ProductsOrdered(a: real, b: real)
    requires 0.0 <= b < a
    ensures b * b < a * a
  {
    ProductPositive(a - b, a + b);
  }

  lemma SquareStrict(a: real, b: real)
    requires 0.0 <= b < a
    ensures Square(b) < Square(a)
  {
    ProductsOrdered(a, b);
  }

  /** Comparing two non-negative numbers is the same as comparing their
      squares; this is what lets the deviation rule avoid the square root. */
  lemma SquareMonotone(a: real, b: real)
    requires a >= 0.0 && b >= 0.0
    ensures a > b <==> Square(a) > Square(b)
  {
    if a > b {
      SquareStrict(a, b);
    } else if a < b {
      SquareStrict(b, a);
    }
  }

  lemma SquarePositive(x: real)
    requires x != 0.0
    ensures Square(x) > 0.0
  {
    if x > 0.0 {
      SquareStrict(x, 0.0);
    } else {
      SquareStrict(-x, 0.0);
      assert Square(-x) == Square(x);
    }
  }

  lemma SquareNonNegative(x: real)
    ensures Square(x) >= 0.0
  {
    if x != 0.0 {
      SquarePositive(x);
    }
  }
}
