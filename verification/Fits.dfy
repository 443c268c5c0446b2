/**
  What the numbers behind the windowed indicators are: the mean and the variance as the best constant
  and how far it misses, the trend's slope as the best straight line, and the deviation tests in
  terms of a standard deviation.
 */
module Fits {
  import opened Wrappers
  import opened Smoothing
  import opened Indicators
  import opened Windows

  // ---------------------------------------------------------------------------
  // The best constant
  // ---------------------------------------------------------------------------

  lemma SquareOfDifference(x: real, m: real)
    ensures Square(x - m) == Square(x) - 2.0 * Product(m, x) + Square(m)
  {
  }

  lemma Times(n: nat, x: real)
    ensures Product((n + 1) as real, x) == Product(n as real, x) + x
  {
  }

  lemma {:induction false} SquaresExpand(xs: seq<real>, m: real)
    ensures SquaresAround(xs, m) == SquaresAround(xs, 0.0) - 2.0 * Product(m, Sum(xs)) + Product(|xs| as real, Square(m))
  {
    if xs != [] {
      var n := |xs| - 1;
      SquaresExpand(xs[..n], m);
      SquareOfDifference(xs[n], m);
      Distribute(m, Sum(xs[..n]), xs[n]);
      Times(n, Square(m));
      hide Square, Product;
      assert xs[n] - 0.0 == xs[n];
    }
  }

  /** `n * k^2 - 2 * k * (n * best)`, as a function of `k`, is least at `best`. */
  lemma CompleteSquare(n: real, k: real, best: real)
    ensures Product(n, Square(k)) - 2.0 * Product(k, Product(n, best))
            == Product(n, Square(k - best)) - Product(n, Square(best))
  {
    assert (k - best) * (k - best) == k * k - 2.0 * k * best + best * best;
    assert n * ((k - best) * (k - best)) == n * (k * k) - 2.0 * n * (k * best) + n * (best * best);
    assert k * (n * best) == n * (k * best);
  }

  /**
    The squared distances from any value come to `n` times the variance and the squared distance of that
    value from the mean: the mean is the one value that is nearest to all, and the variance is how far it misses.
   */
  lemma MeanIsBest(xs: seq<real>, m: real)
    requires xs != []
    ensures SquaresAround(xs, m) == Product(|xs| as real, Variance(xs)) + Product(|xs| as real, Square(m - Mean(xs)))
  {
    var n, mean := |xs| as real, Mean(xs);
    SquaresExpand(xs, m);
    SquaresExpand(xs, mean);
    CompleteSquare(n, m, mean);
    CompleteSquare(n, mean, mean);
    Divided(Sum(xs), n);
    Divided(SquaresAround(xs, mean), n);
    Nowhere(n, mean);
    hide Square, Product, Sum, SquaresAround;
  }

  lemma Divided(s: real, n: real)
    requires n > 0.0
    ensures Product(n, s / n) == s
  {
  }

  lemma Nowhere(n: real, x: real)
    ensures Product(n, Square(x - x)) == 0.0 && Product(x, 0.0) == 0.0
  {
  }

  /** A return is what the price gained, as a share of what it was. */
  lemma {:induction false} ReturnsAt(v: seq<real>, i: nat)
    requires PositiveBase(v) && i + 1 < |v|
    ensures Product(Returns(v)[i], v[i]) == v[i + 1] - v[i]
  {
    if i + 2 < |v| {
      ReturnsAt(v[..|v| - 1], i);
    }
  }

  /** The moving average is the mean of the newest prices, and volatility the variance of their returns. */
  lemma WindowedAre(before: seq<real>, w: seq<real>)
    ensures w != [] ==> Sma(before + w, |w|) == Ok(Some(Mean(w)))
    ensures |w| >= 2 ==> Volatility(before + w, |w|) == if PositiveBase(w) then Ok(Some(Variance(Returns(w)))) else Err(BadPrice)
    ensures w != [] ==> Sma(w[1..], |w|) == Ok(None)
    ensures |w| >= 2 ==> Volatility(w[1..], |w|) == Ok(None)
  {
    assert Last(before + w, |w|) == w;
  }

  /** The first price after the seed weighs two against the window's others. */
  lemma EmaFirstStep(w: seq<real>, x: real)
    requires w != []
    ensures Ema(w + [x], |w|).Ok? && Ema(w + [x], |w|).value.Some?
    ensures Product((|w| + 1) as real, Ema(w + [x], |w|).value.value) == 2.0 * x + Product((|w| - 1) as real, Mean(w))
  {
    var n, all := |w|, w + [x];
    assert all[..n] == w && all[n..] == [x] && [x][..0] == [];
    SeededStep(all, n, EmaAlpha(n));
    StepWeights(n, x, Mean(w));
    hide Seeded, Mean, Mix, Product, EmaAlpha;
  }

  lemma SeededStep(xs: seq<real>, n: nat, alpha: real)
    requires 0 < n && |xs| == n + 1
    ensures Seeded(xs, n, alpha) == Mix(alpha, xs[n], Mean(xs[..n]))
  {
    SmoothMore(Mean(xs[..n]), xs, n, n, alpha);
    SmoothNothing(Mean(xs[..n]), xs, n, alpha);
    hide Mix, Mean, Smooth;
    assert xs[n..n + 1] == xs[n..];
  }

  lemma StepWeights(n: nat, x: real, m: real)
    requires n > 0
    ensures Product((n + 1) as real, Mix(EmaAlpha(n), x, m)) == 2.0 * x + Product((n - 1) as real, m)
  {
    var alpha, d := EmaAlpha(n), (n + 1) as real;
    Weighed(alpha, d, x, m);
  }

  lemma Weighed(alpha: real, d: real, x: real, m: real)
    requires alpha * d == 2.0
    ensures d * (alpha * x + (1.0 - alpha) * m) == 2.0 * x + (d - 2.0) * m
  {
    assert d * (alpha * x + (1.0 - alpha) * m) == (alpha * d) * x + (d - alpha * d) * m;
  }

  // ---------------------------------------------------------------------------
  // The best straight line
  // ---------------------------------------------------------------------------

  /** The squared distances between two series, added up. */
  function Misfit(v: seq<real>, w: seq<real>): real
    requires |v| == |w|
  {
    if v == [] then 0.0 else Misfit(v[..|v| - 1], w[..|w| - 1]) + Square(v[|v| - 1] - w[|w| - 1])
  }

  /** One point `t` places from the middle, where the line is at `k` and climbs by `b` a place. */
  lemma PointMisfit(x: real, k: real, b: real, t: real)
    ensures Square(x - (k + Product(b, t)))
            == Square(x) + Square(k) - 2.0 * Product(k, x) + Product(Square(b), Square(t)) - 2.0 * Product(b, Product(t, x))
               + 2.0 * Product(Product(k, b), t)
  {
    var bt := b * t;
    assert (x - (k + bt)) * (x - (k + bt)) == x * x + k * k + bt * bt - 2.0 * (k * x) - 2.0 * (bt * x) + 2.0 * (k * bt);
    assert bt * bt == (b * b) * (t * t);
    assert bt * x == b * (t * x);
    assert k * bt == (k * b) * t;
  }

  lemma FromMiddle(a: real, b: real, i: real, c: real)
    ensures a + Product(b, i) == a + Product(b, c) + Product(b, i - c)
  {
  }

  lemma {:induction false} MisfitExpand(v: seq<real>, a: real, b: real, c: real)
    ensures var k, n := a + Product(b, c), |v|;
            Misfit(v, Line(a, b, n))
            == SquaresAround(v, 0.0) + Product(n as real, Square(k)) - 2.0 * Product(k, Sum(v))
               + Product(Square(b), Spread(n, c)) - 2.0 * Product(b, Moment(v, c)) + 2.0 * Product(Product(k, b), Offset(n, c))
  {
    if v != [] {
      var n, k := |v| - 1, a + Product(b, c);
      var t, x := n as real - c, v[n];
      MisfitExpand(v[..n], a, b, c);
      assert Line(a, b, n + 1)[..n] == Line(a, b, n);
      FromMiddle(a, b, n as real, c);
      PointMisfit(x, k, b, t);
      Times(n, Square(k));
      Distribute(k, Sum(v[..n]), x);
      Distribute(Square(b), Spread(n, c), Square(t));
      Distribute(b, Moment(v[..n], c), Product(t, x));
      Distribute(Product(k, b), Offset(n, c), t);
      hide Square, Product;
      assert x - 0.0 == x;
    } else {
      assert Line(a, b, 0) == [];
    }
  }

  /** Around the middle the first places cancel out. */
  lemma Balanced(n: nat)
    ensures Offset(n, Middle(n)) == 0.0
  {
    OffsetIs(n, Middle(n));
    assert n as real * (n as real - 1.0) / 2.0 == n as real * Middle(n);
  }

  function BestLine(v: seq<real>): (line: seq<real>)
    requires |v| >= 2
    ensures |line| == |v|
  {
    Line(Mean(v) - Product(Slope(v), Middle(|v|)), Slope(v), |v|)
  }

  lemma MisfitBy(v: seq<real>, a: real, b: real)
    requires |v| >= 2
    ensures var n, c := |v| as real, Middle(|v|);
            Misfit(v, Line(a, b, |v|))
            == SquaresAround(v, 0.0) - Product(n, Square(Mean(v))) - Product(Spread(|v|, c), Square(Slope(v)))
               + Product(n, Square(a + Product(b, c) - Mean(v))) + Product(Spread(|v|, c), Square(b - Slope(v)))
  {
    var n, c := |v| as real, Middle(|v|);
    var k, s := a + Product(b, c), Spread(|v|, c);
    SpreadPositive(|v|, c);
    Balanced(|v|);
    MisfitExpand(v, a, b, c);
    Divided(Sum(v), n);
    Divided(Moment(v, c), s);
    CompleteSquare(n, k, Mean(v));
    CompleteSquare(s, b, Slope(v));
    Commutes(s, Square(b));
    Nowhere(n, Product(k, b));
    hide Square, Product, Misfit, Line, Moment, Spread, Offset, Middle, Sum, SquaresAround;
  }

  /** Every straight line misses a series by as much as the one with its slope, and more the more it differs from that one. */
  lemma LineMisfit(v: seq<real>, a: real, b: real)
    requires |v| >= 2
    ensures Misfit(v, Line(a, b, |v|))
            == Misfit(v, BestLine(v)) + Product(|v| as real, Square(a + Product(b, Middle(|v|)) - Mean(v)))
               + Product(Spread(|v|, Middle(|v|)), Square(b - Slope(v)))
  {
    var c, mean, slope := Middle(|v|), Mean(v), Slope(v);
    MisfitBy(v, a, b);
    MisfitBy(v, mean - Product(slope, c), slope);
    Nowhere(|v| as real, mean);
    Nowhere(Spread(|v|, c), slope);
    hide Square, Product, Misfit, Line, Spread, Middle, Mean, Slope, SquaresAround;
    assert mean - Product(slope, c) + Product(slope, c) == mean;
  }

  lemma Commutes(x: real, y: real)
    ensures Product(x, y) == Product(y, x)
  {
  }

  lemma NotBelow(n: real, d: real)
    requires n > 0.0
    ensures Product(n, Square(d)) >= 0.0
    ensures Product(n, Square(d)) == 0.0 ==> d == 0.0
  {
    if d != 0.0 {
      SameSigns(n, Square(d));
    }
  }

  /** The slope a trend is read from is that of the least-squares line, and of no other. */
  lemma SlopeIsLeastSquares(v: seq<real>, a: real, b: real)
    requires |v| >= 2
    ensures Misfit(v, BestLine(v)) <= Misfit(v, Line(a, b, |v|))
    ensures Misfit(v, BestLine(v)) == Misfit(v, Line(a, b, |v|)) ==> b == Slope(v)
  {
    hide *;
    LineMisfit(v, a, b);
    SpreadPositive(|v|, Middle(|v|));
    NotBelow(|v| as real, a + Product(b, Middle(|v|)) - Mean(v));
    NotBelow(Spread(|v|, Middle(|v|)), b - Slope(v));
  }

  /** A window on a straight line is flat, climbing or falling as its gradient is. */
  lemma TrendOfLine(values: seq<real>, window: int, a: real, b: real)
    requires 2 <= window <= |values| && values[|values| - window..] == Line(a, b, window)
    ensures Trend(values, window)
            == Ok(Some(if b > 0.000000001 then Uptrend else if b < -0.000000001 then Downtrend else Flat))
  {
    SlopeOfLine(a, b, window);
  }

  // ---------------------------------------------------------------------------
  // Deviations
  // ---------------------------------------------------------------------------

  lemma SquaresGrow(x: real, y: real)
    requires x >= 0.0 && y >= 0.0
    ensures Square(x) >= Square(y) <==> x >= y
  {
    SquareDifference(x, y);
    hide Square;
    if x > y {
      Positive(x - y, x + y);
    } else if y > x {
      SquareDifference(y, x);
      Positive(y - x, y + x);
    }
  }

  lemma SquareDifference(x: real, y: real)
    ensures Square(x) - Square(y) == (x - y) * (x + y)
  {
  }

  lemma SquareOfProduct(x: real, y: real)
    ensures Square(x) * Square(y) == Square(x * y)
  {
    assert (x * x) * (y * y) == (x * y) * (x * y);
  }

  /** The test in terms of the standard deviation: as many of them away as asked for, or that far away if there are none. */
  lemma DeviatesBy(x: real, mean: real, sd: real, threshold: real)
    requires sd >= 0.0 && threshold > 0.0
    ensures var far := if sd == 0.0 then threshold else threshold * sd;
            Deviates(x, mean, Square(sd), threshold) <==> x - mean >= far || mean - x >= far
  {
    if sd > 0.0 {
      var d := Abs(x - mean);
      Positive(threshold, sd);
      SquareOfProduct(threshold, sd);
      SquaresGrow(d, threshold * sd);
      assert Square(x - mean) == Square(d);
    }
  }

  /** The latest price against the ones before it: the z-score test, for the baseline's standard deviation. */
  lemma ZScoreIs(baseline: seq<real>, x: real, before: seq<real>, threshold: real, sd: real)
    requires baseline != [] && sd >= 0.0 && threshold > 0.0 && Square(sd) == Variance(baseline)
    ensures var far := if sd == 0.0 then threshold else threshold * sd;
            ZScoreAnomaly(before + baseline + [x], |baseline|, threshold)
            == Ok(Some(x - Mean(baseline) >= far || Mean(baseline) - x >= far))
  {
    var values := before + baseline + [x];
    assert values[|values| - (|baseline| + 1)..|values| - 1] == baseline;
    DeviatesBy(x, Mean(baseline), sd, threshold);
  }

  /** Likewise for the EWMA baseline, which looks at everything before the latest price. */
  lemma EwmaIs(history: seq<real>, x: real, span: int, threshold: real, sd: real)
    requires 0 < span <= |history| && sd >= 0.0 && threshold > 0.0
    requires Square(sd) == EwmaVariance(history, EmaAlpha(span))
    ensures var far, mean := if sd == 0.0 then threshold else threshold * sd, EwmaMean(history, EmaAlpha(span));
            EwmaAnomaly(history + [x], span, threshold) == Ok(Some(x - mean >= far || mean - x >= far))
  {
    assert (history + [x])[..|history|] == history;
    DeviatesBy(x, EwmaMean(history, EmaAlpha(span)), sd, threshold);
  }

  lemma {:induction false} EwmaOfConstant(history: seq<real>, p: real, alpha: real)
    requires history != [] && AllEqual(history, p)
    ensures EwmaMean(history, alpha) == p && EwmaVariance(history, alpha) == 0.0
  {
    var n := |history| - 1;
    if n > 0 {
      EwmaOfConstant(history[..n], p, alpha);
      EwmaMore(history, n, alpha);
      assert history[..n + 1] == history;
    } else {
      assert history[1..] == [];
    }
  }

  /** After a constant price, a jump moves the baseline by `alpha` of itself and its variance by `alpha` of its square. */
  lemma EwmaAfterConstant(history: seq<real>, p: real, x: real, alpha: real)
    requires history != [] && AllEqual(history, p)
    ensures EwmaMean(history + [x], alpha) == p + alpha * (x - p)
    ensures EwmaVariance(history + [x], alpha) == alpha * Square(x - p)
  {
    EwmaOfConstant(history, p, alpha);
    EwmaMore(history + [x], |history|, alpha);
    assert (history + [x])[..|history|] == history && (history + [x])[..|history| + 1] == history + [x];
  }
}
