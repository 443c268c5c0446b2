/**
  The technical indicators, over the reals. Volatility is kept as a variance and a deviation test
  is squared, so that no square root is needed.
 */
module Indicators {
  import opened Wrappers
  import opened Smoothing

  datatype IndicatorError = BadWindow | BadThreshold | BadPrice

  type Reading<T> = Result<Option<T>, IndicatorError>

  /** The last `w` values. */
  function Last(values: seq<real>, w: nat): (s: seq<real>)
    requires w <= |values|
    ensures |s| == w
  {
    values[|values| - w..]
  }

  // ---------------------------------------------------------------------------
  // Moving averages
  // ---------------------------------------------------------------------------

  function Sma(values: seq<real>, window: int): Reading<real> {
    if window <= 0 then Err(BadWindow)
    else if |values| < window then Ok(None)
    else Ok(Some(Mean(Last(values, window))))
  }

  function EmaAlpha(window: int): real
    requires window > 0
  {
    2.0 / (window + 1) as real
  }

  function Ema(values: seq<real>, window: int): Reading<real> {
    if window <= 0 then Err(BadWindow)
    else if |values| < window then Ok(None)
    else Ok(Some(Seeded(values, window, EmaAlpha(window))))
  }

  /** One more value smoothed in. */
  lemma SmoothMore(start: real, xs: seq<real>, w: nat, i: nat, alpha: real)
    requires w <= i < |xs|
    ensures Smooth(start, xs[w..i + 1], alpha) == Mix(alpha, xs[i], Smooth(start, xs[w..i], alpha))
  {
    assert xs[w..i + 1][..i - w] == xs[w..i] && xs[w..i + 1][i - w] == xs[i];
  }

  lemma SmoothNothing(start: real, xs: seq<real>, w: nat, alpha: real)
    requires w <= |xs|
    ensures Smooth(start, xs[w..w], alpha) == start
  {
  }

  method ExponentialMovingAverage(values: seq<real>, window: int) returns (r: Reading<real>)
    ensures r == Ema(values, window)
  {
    if window <= 0 {
      return Err(BadWindow);
    }
    if |values| < window {
      return Ok(None);
    }
    var alpha := 2.0 / (window + 1) as real;
    var ema := Mean(values[..window]);
    for i := window to |values|
      invariant ema == Smooth(Mean(values[..window]), values[window..i], alpha)
    {
      SmoothMore(Mean(values[..window]), values, window, i, alpha);
      ema := Mix(alpha, values[i], ema);
    }
    assert values[window..|values|] == values[window..];
    r := Ok(Some(ema));
  }

  lemma AlphaInRange(window: int)
    requires window > 0
    ensures 0.0 < EmaAlpha(window) <= 1.0
    ensures EmaAlpha(window) == 1.0 <==> window == 1
  {
    var d := (window + 1) as real;
    assert EmaAlpha(window) * d == 2.0;
  }

  /** The moving average stays between the lowest and the highest price. */
  lemma EmaBetween(values: seq<real>, window: int, lo: real, hi: real)
    requires Ema(values, window).Ok? && Ema(values, window).value.Some? && Between(values, lo, hi)
    ensures lo <= Ema(values, window).value.value <= hi
  {
    AlphaInRange(window);
    SeededBetween(values, window, EmaAlpha(window), lo, hi);
  }

  // ---------------------------------------------------------------------------
  // Relative strength
  // ---------------------------------------------------------------------------

  function Rise(x: real, y: real): real {
    if y > x then y - x else 0.0
  }

  /** How much each price rose over the one before it. */
  function Gains(values: seq<real>): (g: seq<real>)
    ensures |g| == if |values| == 0 then 0 else |values| - 1
  {
    if |values| < 2 then []
    else Gains(values[..|values| - 1]) + [Rise(values[|values| - 2], values[|values| - 1])]
  }

  function Losses(values: seq<real>): (l: seq<real>)
    ensures |l| == if |values| == 0 then 0 else |values| - 1
  {
    if |values| < 2 then []
    else Losses(values[..|values| - 1]) + [Rise(values[|values| - 1], values[|values| - 2])]
  }

  function WilderAlpha(period: int): real
    requires period > 0
  {
    1.0 / period as real
  }

  function AvgGain(values: seq<real>, period: int): real
    requires 0 < period < |values|
  {
    Seeded(Gains(values), period, WilderAlpha(period))
  }

  function AvgLoss(values: seq<real>, period: int): real
    requires 0 < period < |values|
  {
    Seeded(Losses(values), period, WilderAlpha(period))
  }

  function RsiOf(avgGain: real, avgLoss: real): real
    requires avgGain >= 0.0 && avgLoss >= 0.0
  {
    if avgGain == 0.0 && avgLoss == 0.0 then 50.0
    else if avgLoss == 0.0 then 100.0
    else if avgGain == 0.0 then 0.0
    else
      PositiveRatio(avgGain, avgLoss);
      100.0 - 100.0 / (1.0 + avgGain / avgLoss)
  }

  lemma PositiveRatio(x: real, y: real)
    requires x > 0.0 && y > 0.0
    ensures x / y > 0.0
  {
    if x / y <= 0.0 {
      Nonnegative(-(x / y), y);
    }
  }

  function Rsi(values: seq<real>, period: int): Reading<real> {
    if period <= 0 then Err(BadWindow)
    else if |values| < period + 1 then Ok(None)
    else
      AveragesNonnegative(values, period);
      Ok(Some(RsiOf(AvgGain(values, period), AvgLoss(values, period))))
  }

  lemma {:induction false} ChangesBetween(values: seq<real>, range: real)
    requires range >= 0.0
    requires forall i | 0 < i < |values| :: Abs(values[i] - values[i - 1]) <= range
    ensures Between(Gains(values), 0.0, range) && Between(Losses(values), 0.0, range)
  {
    if |values| >= 2 {
      var n := |values| - 1;
      assert values[..n][n - 1] == values[n - 1];
      ChangesBetween(values[..n], range);
      assert Abs(values[n] - values[n - 1]) <= range;
    }
  }

  lemma {:induction false} ChangesNonnegative(values: seq<real>) returns (range: real)
    ensures Between(Gains(values), 0.0, range) && Between(Losses(values), 0.0, range)
  {
    range := 0.0;
    if |values| >= 2 {
      var n := |values| - 1;
      var before := ChangesNonnegative(values[..n]);
      var change := Abs(values[n] - values[n - 1]);
      range := if before >= change then before else change;
    }
  }

  lemma WilderInRange(period: int)
    requires period > 0
    ensures 0.0 < WilderAlpha(period) <= 1.0
    ensures WilderAlpha(period) == 1.0 <==> period == 1
  {
    var d := period as real;
    assert WilderAlpha(period) * d == 1.0;
  }

  lemma AveragesNonnegative(values: seq<real>, period: int)
    requires 0 < period < |values|
    ensures AvgGain(values, period) >= 0.0 && AvgLoss(values, period) >= 0.0
  {
    var range := ChangesNonnegative(values);
    WilderInRange(period);
    SeededBetween(Gains(values), period, WilderAlpha(period), 0.0, range);
    SeededBetween(Losses(values), period, WilderAlpha(period), 0.0, range);
  }

  function WilderNext(average: real, change: real, period: int): real
    requires period > 0
  {
    (average * (period - 1) as real + change) / period as real
  }

  /** One step of Wilder's smoothing is one of the recurrence. */
  lemma WilderStep(average: real, change: real, period: int)
    requires period > 0
    ensures WilderNext(average, change, period)
            == Mix(WilderAlpha(period), change, average)
  {
    var d := period as real;
    var a := WilderAlpha(period);
    assert a * d == 1.0;
    assert (period - 1) as real == d - 1.0;
    DivideBy(average * (d - 1.0) + change, d, a);
    assert a * (average * (d - 1.0) + change) == average * (a * d) - a * average + a * change;
  }

  lemma DivideBy(x: real, d: real, a: real)
    requires d > 0.0 && a * d == 1.0
    ensures x / d == a * x
  {
    assert (a * x) * d == x * (a * d);
  }

  method RelativeStrengthIndex(values: seq<real>, period: int) returns (r: Reading<real>)
    ensures r == Rsi(values, period)
  {
    if period <= 0 {
      return Err(BadWindow);
    }
    if |values| < period + 1 {
      return Ok(None);
    }
    AveragesNonnegative(values, period);
    hide *;
    var avgGain := WilderAverage(Gains(values), period);
    var avgLoss := WilderAverage(Losses(values), period);
    var rsi := RsiFromAverages(avgGain, avgLoss);
    RsiIsThat(values, period);
    r := Ok(Some(rsi));
  }

  lemma RsiIsThat(values: seq<real>, period: int)
    requires 0 < period < |values|
    ensures var g, l := Seeded(Gains(values), period, WilderAlpha(period)), Seeded(Losses(values), period, WilderAlpha(period));
            g >= 0.0 && l >= 0.0 && Rsi(values, period) == Ok(Some(RsiOf(g, l)))
  {
    AveragesNonnegative(values, period);
  }

  /** The loop over the gains, and over the losses: the mean of the first ones, then one step for each of the rest. */
  method WilderAverage(changes: seq<real>, period: int) returns (average: real)
    requires 0 < period <= |changes|
    ensures average == Seeded(changes, period, WilderAlpha(period))
  {
    average := Mean(changes[..period]);
    ghost var start, alpha := average, WilderAlpha(period);
    hide Smooth, Mean, WilderNext, WilderAlpha;
    SmoothNothing(start, changes, period, alpha);
    for i := period to |changes|
      invariant average == Smooth(start, changes[period..i], alpha)
    {
      WilderStep(average, changes[i], period);
      SmoothMore(start, changes, period, i, alpha);
      average := WilderNext(average, changes[i], period);
    }
    assert changes[period..|changes|] == changes[period..];
  }

  method RsiFromAverages(avgGain: real, avgLoss: real) returns (rsi: real)
    requires avgGain >= 0.0 && avgLoss >= 0.0
    ensures rsi == RsiOf(avgGain, avgLoss)
  {
    if avgGain == 0.0 && avgLoss == 0.0 {
      return 50.0;
    }
    if avgLoss == 0.0 {
      return 100.0;
    }
    if avgGain == 0.0 {
      return 0.0;
    }
    PositiveRatio(avgGain, avgLoss);
    var relativeStrength := avgGain / avgLoss;
    rsi := 100.0 - 100.0 / (1.0 + relativeStrength);
  }

  /** The index in closed form: the gains' share of all movement. */
  lemma RsiIsShare(g: real, l: real)
    requires g >= 0.0 && l >= 0.0 && g + l > 0.0
    ensures RsiOf(g, l) * (g + l) == 100.0 * g
  {
    if g > 0.0 && l > 0.0 {
      PositiveRatio(g, l);
      var q := g / l;
      assert q * l == g;
      var h := 100.0 / (1.0 + q);
      assert h * (1.0 + q) == 100.0;
      assert h * (l + q * l) == (h * (1.0 + q)) * l;
    }
  }

  lemma RsiInRange(values: seq<real>, period: int)
    requires Rsi(values, period).Ok? && Rsi(values, period).value.Some?
    ensures 0.0 <= Rsi(values, period).value.value <= 100.0
  {
    AveragesNonnegative(values, period);
    ShareInRange(AvgGain(values, period), AvgLoss(values, period));
  }

  lemma ShareInRange(g: real, l: real)
    requires g >= 0.0 && l >= 0.0
    ensures 0.0 <= RsiOf(g, l) <= 100.0
  {
    if g + l > 0.0 {
      RsiIsShare(g, l);
      var r := RsiOf(g, l);
      CancelFactor(0.0, r, g + l);
      CancelFactor(r, 100.0, g + l);
    }
  }

  lemma EqualShares(x: real, y: real, n: real)
    requires n > 0.0 && x * n == y * n
    ensures x == y
  {
    CancelFactor(x, y, n);
    CancelFactor(y, x, n);
  }

  // ---------------------------------------------------------------------------
  // Mirrored and scaled prices
  // ---------------------------------------------------------------------------

  function Mirrored(values: seq<real>, c: real): (m: seq<real>)
    ensures |m| == |values|
  {
    if values == [] then [] else Mirrored(values[..|values| - 1], c) + [c - values[|values| - 1]]
  }

  lemma {:induction false} MirrorSwaps(values: seq<real>, c: real)
    ensures Gains(Mirrored(values, c)) == Losses(values) && Losses(Mirrored(values, c)) == Gains(values)
  {
    if |values| >= 2 {
      var n := |values| - 1;
      MirrorSwaps(values[..n], c);
      assert Mirrored(values, c)[..n] == Mirrored(values[..n], c);
      assert Mirrored(values, c)[n - 1] == c - values[n - 1];
    }
  }

  /** Turning the price series upside down turns the index upside down. */
  lemma RsiMirrors(values: seq<real>, period: int, c: real)
    requires 0 < period < |values|
    ensures Rsi(Mirrored(values, c), period).value.value == 100.0 - Rsi(values, period).value.value
  {
    hide Gains, Losses, Mirrored, WilderAlpha, Seeded;
    MirrorSwaps(values, c);
    AveragesNonnegative(values, period);
    var g, l := AvgGain(values, period), AvgLoss(values, period);
    SharesAddUp(g, l);
  }

  lemma SharesAddUp(g: real, l: real)
    requires g >= 0.0 && l >= 0.0
    ensures RsiOf(l, g) == 100.0 - RsiOf(g, l)
  {
    if g + l > 0.0 {
      RsiIsShare(g, l);
      RsiIsShare(l, g);
      hide RsiOf;
      var x, y := RsiOf(g, l), RsiOf(l, g);
      assert (x + y) * (g + l) == 100.0 * (g + l);
      EqualShares(x + y, 100.0, g + l);
    }
  }

  lemma {:induction false} ScaleScales(values: seq<real>, k: real)
    requires k > 0.0
    ensures Gains(Scaled(values, k)) == Scaled(Gains(values), k)
    ensures Losses(Scaled(values, k)) == Scaled(Losses(values), k)
  {
    if |values| >= 2 {
      hide Gains, Losses, Scaled, Rise, Product;
      var n := |values| - 1;
      var x, y := values[n - 1], values[n];
      ScaleScales(values[..n], k);
      assert values == values[..n] + [y];
      ScaledSnoc(values[..n], y, k);
      ScaledAt(values[..n], k, n - 1);
      GainsSnoc(values[..n], y);
      GainsSnoc(Scaled(values[..n], k), Product(k, y));
      RiseScales(x, y, k);
      RiseScales(y, x, k);
      ScaledSnoc(Gains(values[..n]), Rise(x, y), k);
      ScaledSnoc(Losses(values[..n]), Rise(y, x), k);
      var kx, ky := Product(k, x), Product(k, y);
      assert Scaled(values[..n], k)[n - 1] == kx;
      assert Gains(Scaled(values, k)) == Scaled(Gains(values[..n]), k) + [Rise(kx, ky)];
      assert Losses(Scaled(values, k)) == Scaled(Losses(values[..n]), k) + [Rise(ky, kx)];
    } else {
      assert Scaled(Gains(values), k) == [] && Scaled(Losses(values), k) == [];
    }
  }

  lemma ScaledSnoc(xs: seq<real>, x: real, k: real)
    ensures Scaled(xs + [x], k) == Scaled(xs, k) + [Product(k, x)]
  {
    hide Product;
    var longer := xs + [x];
    assert longer[..|xs|] == xs && longer[|xs|] == x;
  }

  lemma GainsSnoc(xs: seq<real>, x: real)
    requires xs != []
    ensures Gains(xs + [x]) == Gains(xs) + [Rise(xs[|xs| - 1], x)]
    ensures Losses(xs + [x]) == Losses(xs) + [Rise(x, xs[|xs| - 1])]
  {
    hide Rise;
    var longer := xs + [x];
    assert longer[..|xs|] == xs && longer[|xs| - 1] == xs[|xs| - 1];
  }

  lemma RiseScales(x: real, y: real, k: real)
    requires k > 0.0
    ensures Rise(Product(k, x), Product(k, y)) == Product(k, Rise(x, y))
  {
    assert k * y - k * x == k * (y - x);
    if y > x {
      Positive(y - x, k);
    } else {
      Nonnegative(x - y, k);
    }
  }

  /** The index does not depend on the unit of the prices. */
  lemma RsiIgnoresScale(values: seq<real>, period: int, k: real)
    requires 0 < period < |values| && k > 0.0
    ensures Rsi(Scaled(values, k), period) == Rsi(values, period)
  {
    hide Gains, Losses, WilderAlpha, Seeded, Scaled, RsiOf;
    ScaleScales(values, k);
    AveragesNonnegative(values, period);
    AveragesNonnegative(Scaled(values, k), period);
    var g, l := AvgGain(values, period), AvgLoss(values, period);
    SeededScaled(Gains(values), period, WilderAlpha(period), k);
    SeededScaled(Losses(values), period, WilderAlpha(period), k);
    ShareIgnoresScale(g, l, k);
    assert AvgGain(Scaled(values, k), period) == k * g && AvgLoss(Scaled(values, k), period) == k * l;
  }

  lemma ShareIgnoresScale(g: real, l: real, k: real)
    requires g >= 0.0 && l >= 0.0 && k > 0.0
    ensures k * g >= 0.0 && k * l >= 0.0 && RsiOf(k * g, k * l) == RsiOf(g, l)
  {
    Nonnegative(k, g);
    Nonnegative(k, l);
    if g + l > 0.0 {
      Positive(g + l, k);
      assert k * g + k * l == k * (g + l);
      RsiIsShare(g, l);
      RsiIsShare(k * g, k * l);
      var x, y := RsiOf(k * g, k * l), RsiOf(g, l);
      hide RsiOf;
      assert x * (k * (g + l)) == 100.0 * (k * g);
      assert y * (k * (g + l)) == k * (y * (g + l));
      EqualShares(x, y, k * (g + l));
    }
  }
}
