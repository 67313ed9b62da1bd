/** Jain's fairness index over inverse queue waits (benchmarks/run_priority_scheduler_benchmark.py). */
module Fairness {

  function Sum(xs: seq<real>): real {
    if xs == [] then 0.0 else Sum(xs[..|xs| - 1]) + xs[|xs| - 1]
  }

  function SumOfSquares(xs: seq<real>): real {
    if xs == [] then 0.0 else SumOfSquares(xs[..|xs| - 1]) + xs[|xs| - 1] * xs[|xs| - 1]
  }

  function JainIndex(xs: seq<real>): real {
    if xs == [] then 0.0
    else
      var denominator := |xs| as real * SumOfSquares(xs);
      if denominator == 0.0 then 0.0 else Sum(xs) * Sum(xs) / denominator
  }

  ghost predicate Nonnegative(xs: seq<real>) { forall k :: 0 <= k < |xs| ==> xs[k] >= 0.0 }

  ghost predicate AllEqual(xs: seq<real>) { forall i, j :: 0 <= i < j < |xs| ==> xs[i] == xs[j] }

  ghost predicate AtMostOneNonzero(xs: seq<real>) { forall i, j :: 0 <= i < j < |xs| ==> xs[i] == 0.0 || xs[j] == 0.0 }

  /** How far the squares are from what Cauchy-Schwarz needs at least. */
  ghost function Gap(xs: seq<real>): real { |xs| as real * SumOfSquares(xs) - Sum(xs) * Sum(xs) }

  /** Sum of squared distances to y. */
  ghost function Spread(xs: seq<real>, y: real): real {
    if xs == [] then 0.0 else Spread(xs[..|xs| - 1], y) + (xs[|xs| - 1] - y) * (xs[|xs| - 1] - y)
  }

  lemma ProductIsPositive(x: real, y: real, product: real)
    requires (x > 0.0 && y > 0.0) || (x < 0.0 && y < 0.0)
    requires product == x * y
    ensures product > 0.0
  {
  }

  lemma SquareSign(x: real, square: real)
    requires square == x * x
    ensures x != 0.0 ==> square > 0.0
    ensures x == 0.0 ==> square == 0.0
  {
    if x != 0.0 {
      ProductIsPositive(x, x, square);
    }
  }

  lemma SpreadStep(d: real, q: real, s: real, n: real, x: real, y: real, q': real, s': real, n': real)
    requires d == q - 2.0 * (y * s) + n * (y * y)
    requires q' == q + x * x && s' == s + x && n' == n + 1.0
    ensures d + (x - y) * (x - y) == q' - 2.0 * (y * s') + n' * (y * y)
  {
    assert (x - y) * (x - y) == x * x - 2.0 * (y * x) + y * y;
    assert y * s' == y * s + y * x;
    assert n' * (y * y) == n * (y * y) + y * y;
  }

  lemma {:induction false} SpreadExpands(xs: seq<real>, y: real)
    ensures Spread(xs, y) == SumOfSquares(xs) - 2.0 * (y * Sum(xs)) + |xs| as real * (y * y)
  {
    if xs == [] {
      assert y * 0.0 == 0.0;
    } else {
      var n := |xs| - 1;
      SpreadExpands(xs[..n], y);
      SpreadStep(Spread(xs[..n], y), SumOfSquares(xs[..n]), Sum(xs[..n]), n as real, xs[n], y,
                 SumOfSquares(xs), Sum(xs), |xs| as real);
    }
  }

  lemma {:induction false} SpreadIsZeroIff(xs: seq<real>, y: real)
    ensures Spread(xs, y) >= 0.0
    ensures Spread(xs, y) == 0.0 <==> AllAre(xs, y)
  {
    if xs != [] {
      var n := |xs| - 1;
      SpreadIsZeroIff(xs[..n], y);
      SquareSign(xs[n] - y, Spread(xs, y) - Spread(xs[..n], y));
      AllAreStep(xs, y);
    }
  }

  lemma GapStep(d: real, q: real, s: real, n: real, y: real, q': real, s': real, n': real)
    requires d == q - 2.0 * (y * s) + n * (y * y)
    requires q' == q + y * y && s' == s + y && n' == n + 1.0
    ensures n' * q' - s' * s' == (n * q - s * s) + d
  {
    assert n' * q' == n * q + n * (y * y) + q + y * y;
    assert s' * s' == s * s + 2.0 * (y * s) + y * y;
  }

  lemma GapGrowsBySpread(xs: seq<real>)
    requires xs != []
    ensures Gap(xs) == Gap(xs[..|xs| - 1]) + Spread(xs[..|xs| - 1], xs[|xs| - 1])
  {
    var n := |xs| - 1;
    SpreadExpands(xs[..n], xs[n]);
    GapStep(Spread(xs[..n], xs[n]), SumOfSquares(xs[..n]), Sum(xs[..n]), n as real, xs[n],
            SumOfSquares(xs), Sum(xs), |xs| as real);
  }

  /** Cauchy-Schwarz with its equality case, by induction over the code's own sums. */
  lemma {:induction false} GapIsZeroIffAllEqual(xs: seq<real>)
    ensures Gap(xs) >= 0.0
    ensures Gap(xs) == 0.0 <==> AllEqual(xs)
  {
    if xs != [] {
      var n := |xs| - 1;
      GapIsZeroIffAllEqual(xs[..n]);
      GapGrowsBySpread(xs);
      SpreadIsZeroIff(xs[..n], xs[n]);
      LastEqualsAll(xs);
    } else {
      assert Gap(xs) == 0.0;
    }
  }

  ghost predicate AllAre(xs: seq<real>, y: real) { forall k :: 0 <= k < |xs| ==> xs[k] == y }

  lemma AllAreStep(xs: seq<real>, y: real)
    requires xs != []
    ensures AllAre(xs, y) <==> AllAre(xs[..|xs| - 1], y) && xs[|xs| - 1] == y
  {
    assert forall k :: 0 <= k < |xs| - 1 ==> xs[..|xs| - 1][k] == xs[k];
  }

  lemma LastEqualsAll(xs: seq<real>)
    requires xs != []
    ensures AllEqual(xs) <==> AllEqual(xs[..|xs| - 1]) && AllAre(xs[..|xs| - 1], xs[|xs| - 1])
  {
    var p, y := xs[..|xs| - 1], xs[|xs| - 1];
    assert forall k :: 0 <= k < |p| ==> p[k] == xs[k];
    if AllAre(p, y) {
      assert AllAre(xs, y);
    }
  }

  lemma {:induction false} SumsNonnegative(xs: seq<real>)
    requires Nonnegative(xs)
    ensures Sum(xs) >= 0.0 && SumOfSquares(xs) >= 0.0
    ensures Sum(xs) == 0.0 <==> AllAre(xs, 0.0)
    ensures SumOfSquares(xs) == 0.0 <==> AllAre(xs, 0.0)
  {
    if xs != [] {
      var n := |xs| - 1;
      SumsNonnegative(xs[..n]);
      SquareSign(xs[n], SumOfSquares(xs) - SumOfSquares(xs[..n]));
      AllAreStep(xs, 0.0);
    }
  }

  lemma SquareOfSumStep(s: real, q: real, y: real, s': real, q': real)
    requires s >= 0.0 && y >= 0.0 && s * s >= q && s' == s + y && q' == q + y * y
    ensures s' * s' >= q'
    ensures s' * s' == q' <==> s * s == q && (s == 0.0 || y == 0.0)
  {
    assert s' * s' == s * s + 2.0 * (s * y) + y * y;
    if s > 0.0 && y > 0.0 {
      ProductIsPositive(s, y, s * y);
    } else {
      assert s * y == 0.0;
    }
  }

  /** The square of the sum is at least the sum of squares, with equality for at most one nonzero value. */
  lemma {:induction false} SquareOfSumDominates(xs: seq<real>)
    requires Nonnegative(xs)
    ensures Sum(xs) * Sum(xs) >= SumOfSquares(xs)
    ensures Sum(xs) * Sum(xs) == SumOfSquares(xs) <==> AtMostOneNonzero(xs)
  {
    if xs != [] {
      var n := |xs| - 1;
      SquareOfSumDominates(xs[..n]);
      SumsNonnegative(xs[..n]);
      SquareOfSumStep(Sum(xs[..n]), SumOfSquares(xs[..n]), xs[n], Sum(xs), SumOfSquares(xs));
      AtMostOneNonzeroStep(xs);
    }
  }

  lemma AtMostOneNonzeroStep(xs: seq<real>)
    requires xs != []
    ensures AtMostOneNonzero(xs) <==>
              AtMostOneNonzero(xs[..|xs| - 1]) && (AllAre(xs[..|xs| - 1], 0.0) || xs[|xs| - 1] == 0.0)
  {
    var p := xs[..|xs| - 1];
    assert forall k :: 0 <= k < |p| ==> p[k] == xs[k];
  }

  lemma DivideBounds(a: real, b: real, c: real)
    requires b > 0.0
    ensures a / b <= c <==> a <= c * b
    ensures a / b == c <==> a == c * b
  {
    assert a == a / b * b;
    var q := a / b;
    if q <= c { assert q * b <= c * b; }
    if q > c { assert q * b > c * b; }
  }

  /** Jain's bounds for n nonnegative values, not all zero: the index lies in [1/n, 1]; it is 1 exactly when
      all values are equal, and 1/n exactly when a single value is nonzero. */
  lemma JainBounds(xs: seq<real>)
    requires Nonnegative(xs) && !AllAre(xs, 0.0)
    ensures 1.0 / |xs| as real <= JainIndex(xs) <= 1.0
    ensures JainIndex(xs) == 1.0 <==> AllEqual(xs)
    ensures JainIndex(xs) == 1.0 / |xs| as real <==> AtMostOneNonzero(xs)
  {
    SumsNonnegative(xs);
    GapIsZeroIffAllEqual(xs);
    SquareOfSumDominates(xs);
    var n, q, t := |xs| as real, SumOfSquares(xs), Sum(xs) * Sum(xs);
    RatioBounds(n, q, t);
    assert JainIndex(xs) == t / (n * q);
    assert t <= n * q;
  }

  lemma RatioBounds(n: real, q: real, t: real)
    requires n > 0.0 && q > 0.0
    ensures n * q > 0.0
    ensures t / (n * q) <= 1.0 <==> t <= n * q
    ensures t / (n * q) == 1.0 <==> t == n * q
    ensures 1.0 / n <= t / (n * q) <==> q <= t
    ensures t / (n * q) == 1.0 / n <==> t == q
  {
    PositiveProduct(n, q);
    DivideBounds(t, n * q, 1.0);
    DivideBounds(t, n * q, 1.0 / n);
  }

  lemma PositiveProduct(x: real, y: real)
    requires x > 0.0 && y > 0.0
    ensures x * y > 0.0 && 1.0 / x * (x * y) == y
  {
    assert 1.0 / x * (x * y) == (1.0 / x * x) * y;
  }

  /** When all values are zero, or there are none, the code answers 0. */
  lemma JainOfZeros(xs: seq<real>)
    requires AllAre(xs, 0.0)
    ensures JainIndex(xs) == 0.0
  {
    SumsNonnegative(xs);
  }
}
