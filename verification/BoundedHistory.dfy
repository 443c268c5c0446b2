/**
  Keeping only the last prices instead of all of them: which indicators do not notice, and by how
  much the recursive ones can be off.
 */
module BoundedHistory {
  import opened Wrappers
  import opened Smoothing
  import opened Indicators
  import opened Windows

  function Gap(x: real, y: real): real {
    Abs(x - y)
  }

  /** No price is outside `lo` and `hi`, and no step is larger than the range between them. */
  lemma StepsBounded(values: seq<real>, lo: real, hi: real)
    requires Between(values, lo, hi) && values != []
    ensures hi - lo >= 0.0
    ensures Between(Gains(values), 0.0, hi - lo) && Between(Losses(values), 0.0, hi - lo)
  {
    assert lo <= values[0] <= hi;
    forall i | 0 < i < |values|
      ensures Abs(values[i] - values[i - 1]) <= hi - lo
    {
      assert lo <= values[i] <= hi && lo <= values[i - 1] <= hi;
    }
    ChangesBetween(values, hi - lo);
  }

  // ---------------------------------------------------------------------------
  // Windows are exact
  // ---------------------------------------------------------------------------

  lemma LastOfLast(values: seq<real>, m: nat, w: nat)
    requires w <= m <= |values|
    ensures Last(Last(values, m), w) == Last(values, w)
  {
  }

  /** Every windowed indicator is unchanged as long as its window fits into what is kept. */
  lemma WindowsAreExact(values: seq<real>, m: nat, w: int, threshold: real)
    requires w <= m <= |values|
    ensures Sma(Last(values, m), w) == Sma(values, w)
    ensures Volatility(Last(values, m), w) == Volatility(values, w)
    ensures Trend(Last(values, m), w) == Trend(values, w)
    ensures w + 1 <= m ==> ZScoreAnomaly(Last(values, m), w, threshold) == ZScoreAnomaly(values, w, threshold)
  {
    hide Mean, Variance, Returns, Slope, PositiveBase, Deviates;
    if w > 0 {
      LastOfLast(values, m, w);
      if w + 1 <= m {
        var kept := Last(values, m);
        assert kept[m - (w + 1)..m - 1] == values[|values| - (w + 1)..|values| - 1];
        assert kept[m - 1] == values[|values| - 1];
      }
    }
  }

  // ---------------------------------------------------------------------------
  // Moving average
  // ---------------------------------------------------------------------------

  /** The moving average is off by at most the price range times `1 - alpha` to the steps after its window. */
  lemma EmaError(values: seq<real>, m: nat, window: int, lo: real, hi: real)
    requires 0 < window <= m <= |values| && Between(values, lo, hi)
    ensures Ema(values, window).Ok? && Ema(values, window).value.Some?
    ensures Ema(Last(values, m), window).Ok? && Ema(Last(values, m), window).value.Some?
    ensures Gap(Ema(values, window).value.value, Ema(Last(values, m), window).value.value)
            <= Product(Pow(1.0 - EmaAlpha(window), m - window), hi - lo)
  {
    AlphaInRange(window);
    TruncationError(values, m, window, EmaAlpha(window), lo, hi);
  }

  /** A first price of `x` and then a constant `y`. */
  function Jump(x: real, y: real, n: nat): (v: seq<real>)
    ensures |v| == n + 1 && v[0] == x && forall i | 1 <= i <= n :: v[i] == y
  {
    if n == 0 then [x] else Jump(x, y, n - 1) + [y]
  }

  /** Over a constant series, what is left of the start shrinks geometrically. */
  lemma {:induction false} SmoothDecays(start: real, xs: seq<real>, alpha: real, c: real)
    requires AllEqual(xs, c)
    ensures Smooth(start, xs, alpha) == c + Product(Pow(1.0 - alpha, |xs|), start - c)
  {
    if xs == [] {
      NoStep(start - c);
    } else {
      var n := |xs| - 1;
      SmoothDecays(start, xs[..n], alpha, c);
      var rest := Product(Pow(1.0 - alpha, n), start - c);
      SameStep(alpha, c, c + rest, c);
      MixSame(alpha, c);
      Reassociate(1.0 - alpha, Pow(1.0 - alpha, n), start - c);
      hide Mix, Product;
      assert c + rest - c == rest;
    }
  }

  lemma MixSame(alpha: real, c: real)
    ensures Mix(alpha, c, c) == c
  {
    Blend(0.0, c, c, c, c);
    assert alpha * c + (1.0 - alpha) * c == c;
  }

  lemma {:induction false} PowPositive(x: real, n: nat)
    requires x > 0.0
    ensures Pow(x, n) > 0.0
  {
    if n > 0 {
      PowPositive(x, n - 1);
      Positive(x, Pow(x, n - 1));
    }
  }

  lemma OneTimeMore(k: real, c: real)
    ensures Product(k + 1.0, c) == Product(k, c) + c
  {
  }

  lemma {:induction false} SumOfJump(x: real, c: real, n: nat)
    ensures Sum(Jump(x, c, n)) == x + Product(n as real, c)
  {
    var v := Jump(x, c, n);
    if n == 0 {
      assert v[..0] == [];
    } else {
      SumOfJump(x, c, n - 1);
      assert v[..n] == Jump(x, c, n - 1) && v[n] == c;
      OneTimeMore((n - 1) as real, c);
      hide Product;
      assert (n - 1) as real + 1.0 == n as real;
    }
  }

  lemma {:induction false} PrefixOfJump(x: real, c: real, n: nat, w: nat)
    requires 0 < w <= n + 1
    ensures Jump(x, c, n)[..w] == Jump(x, c, w - 1)
  {
    if w <= n {
      PrefixOfJump(x, c, n - 1, w);
      assert Jump(x, c, n)[..w] == Jump(x, c, n - 1)[..w];
    }
  }

  lemma SeedOfJump(x: real, c: real, n: nat, w: nat)
    requires 0 < w <= n && x > c
    ensures Mean(Jump(x, c, n)[..w]) > c
  {
    PrefixOfJump(x, c, n, w);
    SumOfJump(x, c, w - 1);
    OneTimeMore((w - 1) as real, c);
    assert (w - 1) as real + 1.0 == w as real;
    AboveShare(x - c, w as real, c);
  }

  lemma AboveShare(d: real, k: real, c: real)
    requires d > 0.0 && k >= 1.0
    ensures (Product(k, c) + d) / k > c
  {
    PositiveRatio(d, k);
    var q, r := (Product(k, c) + d) / k, d / k;
    assert q * k == Product(k, c) + d && r * k == d;
    SameByFactor(q, c + r, k);
  }

  lemma SameByFactor(x: real, y: real, k: real)
    requires k > 0.0 && x * k == y * k
    ensures x == y
  {
    CancelFactor(x, y, k);
    CancelFactor(y, x, k);
  }

  /** After a higher first price, something of it stays in the average for ever. */
  lemma JumpStays(x: real, c: real, n: nat, w: nat, alpha: real)
    requires 0 < w <= n && 0.0 <= alpha < 1.0 && x > c
    ensures Seeded(Jump(x, c, n), w, alpha) > c
    ensures Seeded(Jump(x, c, n)[1..], w, alpha) == c
  {
    hide Smooth, Pow, Mean, Sum;
    var v := Jump(x, c, n);
    SeedOfJump(x, c, n, w);
    SmoothDecays(Mean(v[..w]), v[w..], alpha, c);
    PowPositive(1.0 - alpha, |v[w..]|);
    Positive(Pow(1.0 - alpha, |v[w..]|), Mean(v[..w]) - c);
    SeededConstant(v[1..], w, alpha, c);
  }

  lemma SeededConstant(xs: seq<real>, w: nat, alpha: real, c: real)
    requires 0 < w <= |xs| && AllEqual(xs, c) && 0.0 <= alpha <= 1.0
    ensures Seeded(xs, w, alpha) == c
  {
    SeededBetween(xs, w, alpha, c, c);
  }

  lemma SmoothAll(start: real, xs: seq<real>)
    requires xs != []
    ensures Smooth(start, xs, 1.0) == xs[|xs| - 1]
  {
  }

  /** With a factor of one, only the last value counts. */
  lemma SeededOne(xs: seq<real>)
    requires xs != []
    ensures Seeded(xs, 1, 1.0) == xs[|xs| - 1]
  {
    if |xs| == 1 {
      assert Sum(xs[..1]) == xs[0] by {
        assert xs[..1][..0] == [];
      }
      assert xs[1..] == [];
    } else {
      SmoothAll(Mean(xs[..1]), xs[1..]);
    }
  }

  predicate AllPositive(values: seq<real>) {
    forall i | 0 <= i < |values| :: values[i] > 0.0
  }

  /** Keeping the last `m` prices never changes the moving average of any longer series exactly when its window is one. */
  lemma EmaExactOnlyForOne(window: int, m: nat)
    requires 0 < window <= m
    ensures window == 1
            <==> forall values: seq<real> :: |values| > m && AllPositive(values) ==> Ema(Last(values, m), window) == Ema(values, window)
  {
    AlphaInRange(window);
    if window == 1 {
      forall values: seq<real> | |values| > m
        ensures Ema(Last(values, m), window) == Ema(values, window)
      {
        SeededOne(values);
        SeededOne(Last(values, m));
      }
    } else {
      var v := Jump(2.0, 1.0, m);
      assert Last(v, m) == v[1..] && AllPositive(v);
      JumpStays(2.0, 1.0, m, window, EmaAlpha(window));
      assert Ema(Last(v, m), window) != Ema(v, window);
    }
  }

  // ---------------------------------------------------------------------------
  // Relative strength
  // ---------------------------------------------------------------------------

  lemma {:induction false} GainsOfLast(values: seq<real>, m: nat)
    requires 1 <= m <= |values|
    ensures Gains(Last(values, m)) == Gains(values)[|values| - m..]
    ensures Losses(Last(values, m)) == Losses(values)[|values| - m..]
  {
    if m > 1 {
      var n := |values| - 1;
      var fewer := values[..n];
      GainsOfLast(fewer, m - 1);
      assert Last(values, m)[..m - 1] == Last(fewer, m - 1);
      assert Last(values, m)[m - 2] == values[n - 1] && Last(values, m)[m - 1] == values[n];
      hide Rise;
      assert Gains(values)[|values| - m..] == Gains(fewer)[|values| - m..] + [Rise(values[n - 1], values[n])];
      assert Losses(values)[|values| - m..] == Losses(fewer)[|values| - m..] + [Rise(values[n], values[n - 1])];
    }
  }

  /** Both Wilder averages are off by at most the price range times `1 - 1/period` to the steps after the seed. */
  lemma WilderError(values: seq<real>, m: nat, period: int, lo: real, hi: real)
    requires 0 < period < m <= |values| && Between(values, lo, hi)
    ensures Gap(AvgGain(values, period), AvgGain(Last(values, m), period))
            <= Product(Pow(1.0 - WilderAlpha(period), m - 1 - period), hi - lo)
    ensures Gap(AvgLoss(values, period), AvgLoss(Last(values, m), period))
            <= Product(Pow(1.0 - WilderAlpha(period), m - 1 - period), hi - lo)
  {
    hide Gains, Losses, Seeded, Pow, Abs, WilderAlpha, Last, Between;
    WilderInRange(period);
    StepsBounded(values, lo, hi);
    GainsOfLast(values, m);
    var range := hi - lo;
    TruncationError(Gains(values), m - 1, period, WilderAlpha(period), 0.0, range);
    TruncationError(Losses(values), m - 1, period, WilderAlpha(period), 0.0, range);
    assert range - 0.0 == range;
    assert |Gains(values)| - (m - 1) == |values| - m && |Losses(values)| - (m - 1) == |values| - m;
  }

  lemma {:induction false} NoChanges(values: seq<real>, c: real)
    requires AllEqual(values, c)
    ensures AllEqual(Gains(values), 0.0) && AllEqual(Losses(values), 0.0)
  {
    if |values| >= 2 {
      NoChanges(values[..|values| - 1], c);
    }
  }

  lemma RisesOfJump(x: real)
    ensures x == 1.0 ==> Rise(x, 2.0) == 1.0 && Rise(2.0, x) == 0.0
    ensures x == 2.0 ==> Rise(x, 2.0) == 0.0 && Rise(2.0, x) == 0.0
  {
  }

  lemma {:induction false} ChangesOfJump(n: nat)
    requires n >= 1
    ensures Gains(Jump(1.0, 2.0, n)) == Jump(1.0, 0.0, n - 1)
    ensures AllEqual(Losses(Jump(1.0, 2.0, n)), 0.0)
  {
    hide Rise;
    var before := Jump(1.0, 2.0, n - 1);
    GainsSnoc(before, 2.0);
    RisesOfJump(before[|before| - 1]);
    if n == 1 {
      assert Gains(before) == [] && Losses(before) == [];
    } else {
      ChangesOfJump(n - 1);
      hide Gains, Losses;
    }
  }

  /** One early rise keeps the full index at 100 for ever, while the kept prices show no movement at all. */
  lemma RsiJump(period: int, m: nat)
    requires 2 <= period < m
    ensures Rsi(Jump(1.0, 2.0, m), period) == Ok(Some(100.0))
    ensures Rsi(Last(Jump(1.0, 2.0, m), m), period) == Ok(Some(50.0))
  {
    var v := Jump(1.0, 2.0, m);
    var alpha := WilderAlpha(period);
    WilderInRange(period);
    ChangesOfJump(m);
    assert Last(v, m) == v[1..];
    JumpStays(1.0, 0.0, m - 1, period, alpha);
    SeededConstant(Losses(v), period, alpha, 0.0);
    NoChanges(v[1..], 2.0);
    SeededConstant(Gains(v[1..]), period, alpha, 0.0);
    SeededConstant(Losses(v[1..]), period, alpha, 0.0);
  }

  /** Keeping the last `m` prices never changes the index of any longer series exactly when its period is one. */
  lemma RsiExactOnlyForOne(period: int, m: nat)
    requires 0 < period < m
    ensures period == 1
            <==> forall values: seq<real> :: |values| > m && AllPositive(values) ==> Rsi(Last(values, m), period) == Rsi(values, period)
  {
    if period == 1 {
      WilderInRange(1);
      forall values: seq<real> | |values| > m
        ensures Rsi(Last(values, m), period) == Rsi(values, period)
      {
        GainsOfLast(values, m);
        SeededOne(Gains(values));
        SeededOne(Losses(values));
        SeededOne(Gains(Last(values, m)));
        SeededOne(Losses(Last(values, m)));
      }
    } else {
      var v := Jump(1.0, 2.0, m);
      RsiJump(period, m);
      assert AllPositive(v) && Rsi(Last(v, m), period) != Rsi(v, period);
    }
  }

  // ---------------------------------------------------------------------------
  // EWMA baseline
  // ---------------------------------------------------------------------------

  lemma MeanOfOne(xs: seq<real>)
    requires |xs| == 1
    ensures Mean(xs) == xs[0]
  {
    MeanBetween(xs, xs[0], xs[0]);
  }

  lemma EwmaIsSeeded(history: seq<real>, alpha: real)
    requires history != []
    ensures EwmaMean(history, alpha) == Seeded(history, 1, alpha)
  {
    MeanOfOne(history[..1]);
  }

  lemma EwmaMeanError(history: seq<real>, m: nat, alpha: real, lo: real, hi: real)
    requires 1 <= m <= |history| && 0.0 <= alpha <= 1.0 && Between(history, lo, hi)
    ensures Gap(EwmaMean(history, alpha), EwmaMean(Last(history, m), alpha)) <= Product(Pow(1.0 - alpha, m - 1), hi - lo)
    ensures lo <= EwmaMean(history, alpha) <= hi
  {
    hide Seeded, Pow, EwmaMean, Abs, Between;
    EwmaIsSeeded(history, alpha);
    EwmaIsSeeded(Last(history, m), alpha);
    TruncationError(history, m, 1, alpha, lo, hi);
    SeededBetween(history, 1, alpha, lo, hi);
  }

  /** How far the variance can be off, in squared ranges, `k` steps after the new start. */
  function VarianceBound(alpha: real, k: nat): real {
    if k == 0 then 1.0
    else Product(1.0 - alpha, VarianceBound(alpha, k - 1)) + 2.0 * Product(alpha, Pow(1.0 - alpha, k - 1))
  }

  /** In closed form the bound falls like `k` times the geometric term. */
  lemma {:induction false} VarianceBoundIs(alpha: real, k: nat)
    ensures Product(1.0 - alpha, VarianceBound(alpha, k))
            == Product(Pow(1.0 - alpha, k), 1.0 - alpha + 2.0 * Product(alpha, k as real))
  {
    if k == 0 {
      assert Product(alpha, 0.0) == 0.0;
    } else {
      VarianceBoundIs(alpha, k - 1);
      ClosedStep(1.0 - alpha, alpha, VarianceBound(alpha, k - 1), Pow(1.0 - alpha, k - 1), k as real);
      hide Product;
      assert (k - 1) as real == k as real - 1.0;
    }
  }

  lemma ClosedStep(q: real, alpha: real, v: real, p: real, k: real)
    requires Product(q, v) == Product(p, q + 2.0 * Product(alpha, k - 1.0))
    ensures Product(q, Product(q, v) + 2.0 * Product(alpha, p)) == Product(Product(q, p), q + 2.0 * Product(alpha, k))
  {
    var t := p * (q + 2.0 * (alpha * (k - 1.0)));
    assert q * v == t;
    assert q * (t + 2.0 * (alpha * p)) == (q * p) * (q + 2.0 * (alpha * k));
  }

  lemma SquareWithin(x: real, range: real)
    requires Abs(x) <= range
    ensures Square(x) <= Square(range)
  {
    Nonnegative(range - x, range + x);
    assert (range - x) * (range + x) == Product(range, range) - Product(x, x);
  }

  lemma SquareGap(x: real, m1: real, m2: real, range: real, gap: real)
    requires Abs(x - m1) <= range && Abs(x - m2) <= range && Abs(m1 - m2) <= gap
    ensures Abs(Square(x - m1) - Square(x - m2)) <= 2.0 * Product(gap, range)
  {
    var d, s := m2 - m1, (x - m1) + (x - m2);
    assert Product(x - m1, x - m1) - Product(x - m2, x - m2) == d * s;
    ProductWithin(d, s, gap, 2.0 * range);
    assert gap * (2.0 * range) == 2.0 * Product(gap, range);
  }

  lemma ProductWithin(x: real, y: real, a: real, b: real)
    requires Abs(x) <= a && Abs(y) <= b
    ensures Abs(x * y) <= a * b
  {
    ScaledGap(Abs(x), y, b);
    Nonnegative(a - Abs(x), b);
    assert a * b - Abs(x) * b == (a - Abs(x)) * b;
    assert Abs(x * y) == Abs(Abs(x) * y);
  }

  lemma NextVariance(alpha: real, s: real, v: real, top: real)
    requires 0.0 <= alpha <= 1.0 && 0.0 <= s <= top && 0.0 <= v <= top
    ensures 0.0 <= Mix(alpha, s, v) <= top
  {
    Blend(alpha, s, v, 0.0, top);
  }

  lemma {:induction false} EwmaVarianceBetween(history: seq<real>, alpha: real, lo: real, hi: real)
    requires history != [] && 0.0 <= alpha <= 1.0 && Between(history, lo, hi)
    ensures 0.0 <= EwmaVariance(history, alpha) <= Square(hi - lo)
    decreases |history|
  {
    if |history| > 1 {
      hide *;
      var n := |history| - 1;
      var before, x, range := history[..n], history[n], hi - lo;
      var mean, variance := EwmaMean(before, alpha), EwmaVariance(before, alpha);
      OneFewer(history, 2, lo, hi);
      EwmaVarianceBetween(before, alpha, lo, hi);
      EwmaMeanError(before, 1, alpha, lo, hi);
      var residual := x - mean;
      GapBetween(x, mean, lo, hi);
      SquareWithin(residual, range);
      NextVariance(alpha, Square(residual), variance, Square(range));
      VarianceMore(history, alpha, x, mean, variance);
    }
  }

  lemma Triangle(x: real, y: real)
    ensures Abs(x + y) <= Abs(x) + Abs(y)
  {
  }

  lemma MixGap(alpha: real, s1: real, s2: real, v1: real, v2: real)
    ensures Mix(alpha, s1, v1) - Mix(alpha, s2, v2) == Product(alpha, s1 - s2) + Product(1.0 - alpha, v1 - v2)
  {
  }

  lemma ProductGap(p: real, d: real, range: real)
    requires p >= 0.0 && Abs(d) <= range
    ensures Abs(Product(p, d)) <= Product(p, range)
  {
    ScaledGap(p, d, range);
  }

  lemma Gather(alpha: real, q: real, b: real, p: real, r: real)
    ensures Product(q, Product(b, r)) + Product(alpha, 2.0 * Product(p, r)) == Product(Product(q, b) + 2.0 * Product(alpha, p), r)
  {
  }

  lemma VarianceStep(alpha: real, s1: real, s2: real, v1: real, v2: real, r: real, b: real, p: real)
    requires 0.0 <= alpha <= 1.0
    requires Abs(v1 - v2) <= Product(b, r) && Abs(s1 - s2) <= 2.0 * Product(p, r)
    ensures Abs(Mix(alpha, s1, v1) - Mix(alpha, s2, v2)) <= Product(Product(1.0 - alpha, b) + 2.0 * Product(alpha, p), r)
  {
    hide Product, Mix, Abs;
    MixGap(alpha, s1, s2, v1, v2);
    Triangle(Product(alpha, s1 - s2), Product(1.0 - alpha, v1 - v2));
    ProductGap(1.0 - alpha, v1 - v2, Product(b, r));
    ProductGap(alpha, s1 - s2, 2.0 * Product(p, r));
    Gather(alpha, 1.0 - alpha, b, p, r);
  }

  /** The EWMA variance over the kept prices is off by at most `VarianceBound` squared price ranges. */
  lemma {:induction false} EwmaVarianceError(history: seq<real>, m: nat, alpha: real, lo: real, hi: real)
    requires 1 <= m <= |history| && 0.0 <= alpha <= 1.0 && Between(history, lo, hi)
    ensures Gap(EwmaVariance(history, alpha), EwmaVariance(Last(history, m), alpha))
            <= Product(VarianceBound(alpha, m - 1), Square(hi - lo))
    decreases m
  {
    if m == 1 {
      EwmaVarianceBetween(history, alpha, lo, hi);
    } else {
      hide *;
      var n := |history| - 1;
      var before, x, range := history[..n], history[n], hi - lo;
      var keptBefore := Last(before, m - 1);
      OneFewer(history, m, lo, hi);
      EwmaVarianceError(before, m - 1, alpha, lo, hi);
      var m1, m2 := EwmaMean(before, alpha), EwmaMean(keptBefore, alpha);
      var v1, v2 := EwmaVariance(before, alpha), EwmaVariance(keptBefore, alpha);
      EwmaMeanError(before, m - 1, alpha, lo, hi);
      EwmaMeanError(keptBefore, m - 1, alpha, lo, hi);
      SpanBetween(x, m1, lo, hi);
      SpanBetween(x, m2, lo, hi);
      var b, p, q := VarianceBound(alpha, m - 2), Pow(1.0 - alpha, m - 2), 1.0 - alpha;
      VarianceMore(history, alpha, x, m1, v1);
      VarianceMore(Last(history, m), alpha, x, m2, v2);
      BoundMore(alpha, m - 1, b, p, q);
      OneStepOff(alpha, x, m1, m2, v1, v2, range, b, p);
    }
  }

  lemma OneFewer(history: seq<real>, m: nat, lo: real, hi: real)
    requires 2 <= m <= |history| && Between(history, lo, hi)
    ensures var n := |history| - 1;
            && Between(history[..n], lo, hi) && lo <= history[n] <= hi
            && Last(history, m)[..m - 1] == Last(history[..n], m - 1)
            && Last(history, m)[m - 1] == history[n]
            && Between(Last(history[..n], m - 1), lo, hi)
  {
  }

  lemma SpanBetween(x: real, y: real, lo: real, hi: real)
    requires lo <= x <= hi && lo <= y <= hi
    ensures Gap(x, y) <= hi - lo
  {
  }

  lemma OneStepOff(alpha: real, x: real, m1: real, m2: real, v1: real, v2: real, range: real, b: real, p: real)
    requires 0.0 <= alpha <= 1.0
    requires Gap(x, m1) <= range && Gap(x, m2) <= range && Gap(m1, m2) <= Product(p, range)
    requires Gap(v1, v2) <= Product(b, Square(range))
    ensures Gap(Mix(alpha, Square(x - m1), v1), Mix(alpha, Square(x - m2), v2))
            <= Product(Product(1.0 - alpha, b) + 2.0 * Product(alpha, p), Square(range))
  {
    hide Mix;
    SquareGap(x, m1, m2, range, Product(p, range));
    ProductMoves(p, range);
    hide Square, Product, Abs;
    VarianceStep(alpha, Square(x - m1), Square(x - m2), v1, v2, Square(range), b, p);
  }

  lemma ProductMoves(p: real, range: real)
    ensures Product(Product(p, range), range) == Product(p, Square(range))
  {
  }

  lemma VarianceMore(history: seq<real>, alpha: real, x: real, mean: real, variance: real)
    requires |history| > 1
    requires var n := |history| - 1;
             x == history[n] && mean == EwmaMean(history[..n], alpha) && variance == EwmaVariance(history[..n], alpha)
    ensures EwmaVariance(history, alpha) == Mix(alpha, Square(x - mean), variance)
  {
  }

  lemma BoundMore(alpha: real, k: nat, b: real, p: real, q: real)
    requires k > 0 && b == VarianceBound(alpha, k - 1) && p == Pow(1.0 - alpha, k - 1) && q == 1.0 - alpha
    ensures VarianceBound(alpha, k) == Product(q, b) + 2.0 * Product(alpha, p)
  {
  }
}
