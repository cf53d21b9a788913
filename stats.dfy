/** Sums, means and squared deviations over real sequences, and the square
    root the engine takes from the host's math library. */
module Stats {

  /** `Math.pow(x, 2)`. */
  function Square(x: real): real
  {
    x * x
  }

  /** Every later value is strictly greater than every earlier one. */
  predicate StrictlyRising(s: seq<real>)
  {
    forall j, k :: 0 <= j < k < |s| ==> s[j] < s[k]
  }

  /** Left-to-right sum, as `reduce((a, b) => a + b, 0)`. */
  function Sum(s: seq<real>): real
  {
    if |s| == 0 then 0.0 else Sum(s[..|s| - 1]) + s[|s| - 1]
  }

  /** Arithmetic mean of a non-empty sequence. */
  function Mean(s: seq<real>): real
    requires |s| > 0
  {
    Sum(s) / |s| as real
  }

  /** Left-to-right sum of squared deviations from `m`, as
      `reduce((sum, x) => sum + Math.pow(x - m, 2), 0)`. */
  function SquaredDeviations(s: seq<real>, m: real): real
  {
    if |s| == 0 then 0.0
    else SquaredDeviations(s[..|s| - 1], m) + Square(s[|s| - 1] - m)
  }

  /** Population variance: squared deviations from the mean, divided by the
      number of values (not by one less). */
  function PopulationVariance(s: seq<real>): real
    requires |s| > 0
  {
    SquaredDeviations(s, Mean(s)) / |s| as real
  }

  /** What the model requires of the host's `Math.sqrt`: on a non-negative
      argument it returns the non-negative square root. */
  ghost predicate IsSqrt(sqrt: real -> real)
  {
    forall x :: 0.0 <= x ==> 0.0 <= sqrt(x) && Square(sqrt(x)) == x
  }

  lemma ProductPositive(a: real, b: real, c: real)
    requires 0.0 < a && 0.0 < b && c == a * b
    ensures 0.0 < c
  {
    assert a * b > 0.0 * b;
  }

  /** A square is non-negative, and positive unless its root is zero. */
  lemma SquareSign(d: real)
    ensures 0.0 <= Square(d)
    ensures d != 0.0 ==> 0.0 < Square(d)
  {
    if d > 0.0 {
      ProductPositive(d, d, Square(d));
    } else if d < 0.0 {
      ProductPositive(-d, -d, Square(d));
    }
  }

  /** The square root is zero exactly at zero. */
  lemma SqrtZero(sqrt: real -> real, x: real)
    requires IsSqrt(sqrt) && 0.0 <= x
    ensures sqrt(x) == 0.0 <==> x == 0.0
  {
    SquareSign(sqrt(x));
  }

  /** Bounds on every element bound the sum. */
  lemma {:induction false} SumBounds(s: seq<real>, lo: real, hi: real)
    requires forall k :: 0 <= k < |s| ==> lo <= s[k] <= hi
    ensures |s| as real * lo <= Sum(s) <= |s| as real * hi
  {
    if |s| > 0 {
      SumBounds(s[..|s| - 1], lo, hi);
    }
  }

  /** A strict upper bound on every element gives a strict bound on the sum. */
  lemma {:induction false} SumBelow(s: seq<real>, hi: real)
    requires |s| > 0
    requires forall k :: 0 <= k < |s| ==> s[k] < hi
    ensures Sum(s) < |s| as real * hi
  {
    if |s| > 1 {
      SumBelow(s[..|s| - 1], hi);
    }
  }

  /** The mean lies between any lower and upper bound of the values. */
  lemma MeanWithin(s: seq<real>, lo: real, hi: real)
    requires |s| > 0
    requires forall k :: 0 <= k < |s| ==> lo <= s[k] <= hi
    ensures lo <= Mean(s) <= hi
  {
    var n := |s| as real;
    SumBounds(s, lo, hi);
    assert Mean(s) - lo == (Sum(s) - n * lo) / n;
    assert hi - Mean(s) == (n * hi - Sum(s)) / n;
  }

  /** The mean of a constant sequence is that constant. */
  lemma MeanConstant(s: seq<real>, c: real)
    requires |s| > 0
    requires forall k :: 0 <= k < |s| ==> s[k] == c
    ensures Mean(s) == c
  {
    MeanWithin(s, c, c);
  }

  /** When the last value exceeds all the others, it exceeds the mean. */
  lemma MeanBelowLast(s: seq<real>)
    requires |s| >= 2
    requires forall k :: 0 <= k < |s| - 1 ==> s[k] < s[|s| - 1]
    ensures Mean(s) < s[|s| - 1]
  {
    var n := |s| as real;
    var last := s[|s| - 1];
    var front := s[..|s| - 1];
    assert forall k :: 0 <= k < |front| ==> front[k] < last;
    SumBelow(front, last);
    assert Sum(s) == Sum(front) + last;
    assert last - Mean(s) == (n * last - Sum(s)) / n;
  }

  /** Squared deviations are never negative. */
  lemma {:induction false} SquaredDeviationsNonNegative(s: seq<real>, m: real)
    ensures 0.0 <= SquaredDeviations(s, m)
  {
    if |s| > 0 {
      SquaredDeviationsNonNegative(s[..|s| - 1], m);
      SquareSign(s[|s| - 1] - m);
    }
  }

  /** One value away from `m` makes the squared deviations positive. */
  lemma {:induction false} SquaredDeviationsPositive(s: seq<real>, m: real, k: nat)
    requires k < |s| && s[k] != m
    ensures 0.0 < SquaredDeviations(s, m)
  {
    var front := s[..|s| - 1];
    SquareSign(s[|s| - 1] - m);
    if k == |s| - 1 {
      SquaredDeviationsNonNegative(front, m);
    } else {
      assert front[k] == s[k];
      SquaredDeviationsPositive(front, m, k);
    }
  }

  /** Values that all equal `m` have no squared deviation from it. */
  lemma {:induction false} SquaredDeviationsOfConstant(s: seq<real>, m: real)
    requires forall k :: 0 <= k < |s| ==> s[k] == m
    ensures SquaredDeviations(s, m) == 0.0
  {
    if |s| > 0 {
      SquaredDeviationsOfConstant(s[..|s| - 1], m);
    }
  }

  /** The population variance is never negative, and it is zero exactly when
      every value equals the mean. */
  lemma PopulationVarianceZero(s: seq<real>)
    requires |s| > 0
    ensures 0.0 <= PopulationVariance(s)
    ensures PopulationVariance(s) == 0.0 <==> forall k :: 0 <= k < |s| ==> s[k] == Mean(s)
  {
    var n := |s| as real;
    var m := Mean(s);
    SquaredDeviationsNonNegative(s, m);
    if forall k :: 0 <= k < |s| ==> s[k] == m {
      SquaredDeviationsOfConstant(s, m);
    } else {
      var k :| 0 <= k < |s| && s[k] != m;
      SquaredDeviationsPositive(s, m, k);
      assert 0.0 < SquaredDeviations(s, m) / n;
    }
  }
}
