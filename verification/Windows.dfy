/**
  The indicators that look at a fixed window of prices, and the EWMA baseline test. Volatility is
  kept as a variance, and "so many standard deviations away" is compared in squares.
 */
module Windows {
  import opened Wrappers
  import opened Smoothing
  import opened Indicators

  // ---------------------------------------------------------------------------
  // Variance
  // ---------------------------------------------------------------------------

  lemma SameSigns(x: real, y: real)
    requires (x > 0.0 && y > 0.0) || (x < 0.0 && y < 0.0)
    ensures Product(x, y) > 0.0
  {
  }

  function Square(x: real): (s: real)
    ensures s >= 0.0 && (s == 0.0 <==> x == 0.0)
  {
    if x != 0.0 then
      SameSigns(x, x);
      Product(x, x)
    else Product(x, x)
  }

  function SquaresAround(xs: seq<real>, m: real): real {
    if xs == [] then 0.0 else SquaresAround(xs[..|xs| - 1], m) + Square(xs[|xs| - 1] - m)
  }

  /** The population variance. */
  function Variance(xs: seq<real>): real
    requires xs != []
  {
    SquaresAround(xs, Mean(xs)) / |xs| as real
  }

  predicate AllEqual(xs: seq<real>, m: real) {
    forall i | 0 <= i < |xs| :: xs[i] == m
  }

  lemma {:induction false} SquaresZero(xs: seq<real>, m: real)
    ensures SquaresAround(xs, m) >= 0.0
    ensures SquaresAround(xs, m) == 0.0 <==> AllEqual(xs, m)
  {
    if xs != [] {
      var n := |xs| - 1;
      SquaresZero(xs[..n], m);
      assert AllEqual(xs, m) <==> AllEqual(xs[..n], m) && xs[n] == m;
    }
  }

  /** The branch for a baseline that does not vary is taken exactly when all its prices are the same. */
  lemma VarianceZero(xs: seq<real>)
    requires xs != []
    ensures Variance(xs) >= 0.0
    ensures Variance(xs) == 0.0 <==> AllEqual(xs, xs[0])
  {
    SquaresZero(xs, Mean(xs));
    var s, n := SquaresAround(xs, Mean(xs)), |xs| as real;
    DivideBetween(s, n, 0.0, s / n);
    assert s / n * n == s;
    if AllEqual(xs, xs[0]) {
      MeanBetween(xs, xs[0], xs[0]);
    }
  }

  /** The distance from `mean` is at least `threshold` standard deviations, or `threshold` itself when there are none. */
  predicate Deviates(x: real, mean: real, variance: real, threshold: real) {
    if variance == 0.0 then Abs(x - mean) >= threshold
    else Square(x - mean) >= Square(threshold) * variance
  }

  // ---------------------------------------------------------------------------
  // Volatility, trend and z-score
  // ---------------------------------------------------------------------------

  /** Simple returns over consecutive prices, all but the last of them positive. */
  function Returns(v: seq<real>): (r: seq<real>)
    requires forall i | 0 <= i < |v| - 1 :: v[i] > 0.0
    ensures |r| == if v == [] then 0 else |v| - 1
  {
    if |v| < 2 then [] else Returns(v[..|v| - 1]) + [(v[|v| - 1] - v[|v| - 2]) / v[|v| - 2]]
  }

  predicate PositiveBase(v: seq<real>) {
    forall i | 0 <= i < |v| - 1 :: v[i] > 0.0
  }

  function Volatility(values: seq<real>, window: int): Reading<real> {
    if window < 2 then Err(BadWindow)
    else if |values| < window then Ok(None)
    else if !PositiveBase(Last(values, window)) then Err(BadPrice)
    else Ok(Some(Variance(Returns(Last(values, window)))))
  }

  /** Sum of `(i - c) * v[i]`. */
  function Moment(v: seq<real>, c: real): real {
    if v == [] then 0.0 else Moment(v[..|v| - 1], c) + Product((|v| - 1) as real - c, v[|v| - 1])
  }

  /** Sum of `(i - c)` squared over the first `n` places. */
  function Spread(n: nat, c: real): real {
    if n == 0 then 0.0 else Spread(n - 1, c) + Square((n - 1) as real - c)
  }

  function Middle(n: nat): real {
    (n as real - 1.0) / 2.0
  }

  lemma {:induction false} SpreadPositive(n: nat, c: real)
    ensures Spread(n, c) >= 0.0
    ensures n >= 2 ==> Spread(n, c) > 0.0
  {
    if n > 0 {
      SpreadPositive(n - 1, c);
      if n >= 2 {
        assert Spread(n, c) == Spread(n - 2, c) + Square((n - 2) as real - c) + Square((n - 1) as real - c);
        SpreadPositive(n - 2, c);
      }
    }
  }

  /** The slope of the least-squares line through the values at places 0, 1, 2, ... */
  function Slope(v: seq<real>): real
    requires |v| >= 2
  {
    SpreadPositive(|v|, Middle(|v|));
    Moment(v, Middle(|v|)) / Spread(|v|, Middle(|v|))
  }

  datatype TrendLabel = Flat | Uptrend | Downtrend

  const FLAT_TOLERANCE := 0.000000001

  function Trend(values: seq<real>, window: int): Reading<TrendLabel> {
    if window < 2 then Err(BadWindow)
    else if |values| < window then Ok(None)
    else
      var slope := Slope(Last(values, window));
      Ok(Some(if Abs(slope) <= FLAT_TOLERANCE then Flat else if slope > 0.0 then Uptrend else Downtrend))
  }

  function ZScoreAnomaly(values: seq<real>, window: int, threshold: real): Reading<bool> {
    if window <= 0 then Err(BadWindow)
    else if threshold <= 0.0 then Err(BadThreshold)
    else if |values| < window + 1 then Ok(None)
    else
      var baseline := values[|values| - (window + 1)..|values| - 1];
      Ok(Some(Deviates(values[|values| - 1], Mean(baseline), Variance(baseline), threshold)))
  }

  /** The first `n` points of a straight line. */
  function Line(a: real, b: real, n: nat): (v: seq<real>)
    ensures |v| == n
  {
    if n == 0 then [] else Line(a, b, n - 1) + [a + Product(b, (n - 1) as real)]
  }

  /** Sum of `i - c` over the first `n` places. */
  function Offset(n: nat, c: real): real {
    if n == 0 then 0.0 else Offset(n - 1, c) + ((n - 1) as real - c)
  }

  lemma {:induction false} OffsetIs(n: nat, c: real)
    ensures Offset(n, c) == n as real * (n as real - 1.0) / 2.0 - n as real * c
  {
    if n > 0 {
      OffsetIs(n - 1, c);
      var x := n as real;
      assert (n - 1) as real == x - 1.0;
      assert (x - 1.0) * (x - 2.0) / 2.0 - (x - 1.0) * c + (x - 1.0 - c) == x * (x - 1.0) / 2.0 - x * c;
    }
  }

  lemma LinePoint(a: real, b: real, x: real, c: real)
    ensures Product(x - c, a + Product(b, x)) == Product(a + Product(b, c), x - c) + Product(b, Square(x - c))
  {
  }

  lemma Distribute(k: real, x: real, y: real)
    ensures Product(k, x + y) == Product(k, x) + Product(k, y)
  {
  }

  lemma {:induction false} LineMoment(a: real, b: real, n: nat, c: real)
    ensures Moment(Line(a, b, n), c) == Product(a + Product(b, c), Offset(n, c)) + Product(b, Spread(n, c))
  {
    if n > 0 {
      var x, k, line := (n - 1) as real, a + Product(b, c), Line(a, b, n);
      LineMoment(a, b, n - 1, c);
      LinePoint(a, b, x, c);
      Distribute(k, Offset(n - 1, c), x - c);
      Distribute(b, Spread(n - 1, c), Square(x - c));
      hide Square, Product;
      assert line[..n - 1] == Line(a, b, n - 1);
    }
  }

  /** Prices on a straight line have exactly its gradient as their slope. */
  lemma SlopeOfLine(a: real, b: real, n: nat)
    requires n >= 2
    ensures Slope(Line(a, b, n)) == b
  {
    var c := Middle(n);
    LineMoment(a, b, n, c);
    OffsetIs(n, c);
    assert Offset(n, c) == 0.0 by {
      assert n as real * (n as real - 1.0) / 2.0 == n as real * c;
    }
    SpreadPositive(n, c);
    hide Moment, Spread, Line, Offset, Middle;
    Cancels(a + Product(b, c), b, Spread(n, c));
  }

  lemma Cancels(k: real, b: real, s: real)
    requires s > 0.0
    ensures (Product(k, 0.0) + Product(b, s)) / s == b
  {
    EqualShares((Product(k, 0.0) + Product(b, s)) / s, b, s);
  }

  // ---------------------------------------------------------------------------
  // The EWMA baseline
  // ---------------------------------------------------------------------------

  function EwmaMean(history: seq<real>, alpha: real): real
    requires history != []
  {
    Smooth(history[0], history[1..], alpha)
  }

  function EwmaVariance(history: seq<real>, alpha: real): real
    requires history != []
  {
    if |history| == 1 then 0.0
    else
      var n := |history| - 1;
      Mix(alpha, Square(history[n] - EwmaMean(history[..n], alpha)), EwmaVariance(history[..n], alpha))
  }

  function EwmaAnomaly(values: seq<real>, span: int, threshold: real): Reading<bool> {
    if span <= 0 then Err(BadWindow)
    else if threshold <= 0.0 then Err(BadThreshold)
    else if |values| < span + 1 then Ok(None)
    else
      var history := values[..|values| - 1];
      Ok(Some(Deviates(values[|values| - 1], EwmaMean(history, EmaAlpha(span)), EwmaVariance(history, EmaAlpha(span)), threshold)))
  }

  lemma EwmaMore(history: seq<real>, i: nat, alpha: real)
    requires 1 <= i < |history|
    ensures EwmaMean(history[..i + 1], alpha) == Mix(alpha, history[i], EwmaMean(history[..i], alpha))
    ensures EwmaVariance(history[..i + 1], alpha)
            == Mix(alpha, Square(history[i] - EwmaMean(history[..i], alpha)), EwmaVariance(history[..i], alpha))
  {
    hide Square;
    var longer := history[..i + 1];
    assert longer[..i] == history[..i];
    assert longer[1..][..i - 1] == history[..i][1..];
    assert longer[1..][i - 1] == history[i];
  }

  method DetectEwmaAnomaly(values: seq<real>, span: int, threshold: real) returns (r: Reading<bool>)
    ensures r == EwmaAnomaly(values, span, threshold)
  {
    if span <= 0 {
      return Err(BadWindow);
    }
    if threshold <= 0.0 {
      return Err(BadThreshold);
    }
    if |values| < span + 1 {
      return Ok(None);
    }
    var history := values[..|values| - 1];
    var mean, variance := EwmaBaseline(history, EmaAlpha(span));
    r := Ok(Some(Deviates(values[|values| - 1], mean, variance, threshold)));
  }

  /** The loop that builds the baseline. */
  method EwmaBaseline(history: seq<real>, alpha: real) returns (mean: real, variance: real)
    requires history != []
    ensures mean == EwmaMean(history, alpha) && variance == EwmaVariance(history, alpha)
  {
    mean, variance := history[0], 0.0;
    EwmaStart(history, alpha);
    hide *;
    for i := 1 to |history|
      invariant mean == EwmaMean(history[..i], alpha) && variance == EwmaVariance(history[..i], alpha)
    {
      EwmaMore(history, i, alpha);
      var residual := history[i] - mean;
      mean := Mix(alpha, history[i], mean);
      variance := Mix(alpha, Square(residual), variance);
    }
    assert history[..|history|] == history;
  }

  lemma EwmaStart(history: seq<real>, alpha: real)
    requires history != []
    ensures EwmaMean(history[..1], alpha) == history[0] && EwmaVariance(history[..1], alpha) == 0.0
  {
  }
}
