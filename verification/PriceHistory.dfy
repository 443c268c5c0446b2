/**
  How many prices the stream processor keeps, what it computes from them, and what difference
  keeping no more than that makes.
 */
module PriceHistory {
  import opened Wrappers
  import opened Smoothing
  import opened Indicators
  import opened Windows
  import opened BoundedHistory

  const HISTORY_WINDOW_MULTIPLIER := 8

  datatype IndicatorConfig = IndicatorConfig(
    smaWindow: int, emaWindow: int, rsiPeriod: int, volatilityWindow: int, trendWindow: int,
    zscoreWindow: int, zscoreThreshold: real, ewmaSpan: int, ewmaThreshold: real)
  {
    function Longest(): int {
      Max(smaWindow, Max(emaWindow, Max(rsiPeriod + 1, Max(volatilityWindow, Max(trendWindow, Max(zscoreWindow, ewmaSpan))))))
    }

    /** Every indicator accepts its window and threshold. */
    predicate Sound() {
      && smaWindow >= 1 && emaWindow >= 1 && rsiPeriod >= 1 && volatilityWindow >= 2 && trendWindow >= 2
      && zscoreWindow >= 1 && zscoreThreshold > 0.0 && ewmaSpan >= 1 && ewmaThreshold > 0.0
    }

    /** How many prices are kept for each symbol. */
    function HistoryMaxlen(): int {
      Longest() * HISTORY_WINDOW_MULTIPLIER + 1
    }
  }

  const DEFAULT_CONFIG := IndicatorConfig(5, 5, 5, 5, 5, 5, 2.0, 5, 3.0)

  function Max(a: int, b: int): int {
    if a > b then a else b
  }

  /** What a queue bounded to `n` entries keeps of the prices appended to it. */
  function Kept(prices: seq<real>, n: int): seq<real> {
    if n <= 0 then [] else if |prices| <= n then prices else Last(prices, n)
  }

  /** The prices an event is judged by: those kept, and its own. */
  function Candidates(prices: seq<real>, price: real, c: IndicatorConfig): seq<real> {
    Kept(prices, c.HistoryMaxlen()) + [price]
  }

  // ---------------------------------------------------------------------------
  // All indicators of an event
  // ---------------------------------------------------------------------------

  datatype Analysis = Analysis(
    sma: Option<real>, ema: Option<real>, rsi: Option<real>, volatility: Option<real>, trend: Option<TrendLabel>,
    zscoreAnomaly: Option<bool>, ewmaAnomaly: Option<bool>)
  {
    predicate Anomaly() {
      zscoreAnomaly == Some(true) || ewmaAnomaly == Some(true)
    }
  }

  /** Every indicator of a price list, or the first error among them. */
  function Analyse(prices: seq<real>, c: IndicatorConfig): Result<Analysis, IndicatorError> {
    var sma := Sma(prices, c.smaWindow);
    var ema := Ema(prices, c.emaWindow);
    var rsi := Rsi(prices, c.rsiPeriod);
    var volatility := Volatility(prices, c.volatilityWindow);
    var trend := Trend(prices, c.trendWindow);
    var zscore := ZScoreAnomaly(prices, c.zscoreWindow, c.zscoreThreshold);
    var ewma := EwmaAnomaly(prices, c.ewmaSpan, c.ewmaThreshold);
    if sma.Err? then Err(sma.error)
    else if ema.Err? then Err(ema.error)
    else if rsi.Err? then Err(rsi.error)
    else if volatility.Err? then Err(volatility.error)
    else if trend.Err? then Err(trend.error)
    else if zscore.Err? then Err(zscore.error)
    else if ewma.Err? then Err(ewma.error)
    else Ok(Analysis(sma.value, ema.value, rsi.value, volatility.value, trend.value, zscore.value, ewma.value))
  }

  /** What the processor makes of an event with this price, after events with those prices. */
  function Judged(prices: seq<real>, price: real, c: IndicatorConfig): Result<Analysis, IndicatorError> {
    Analyse(Candidates(prices, price, c), c)
  }

  /** What is kept always covers every window, with at least seven more windows' worth of prices before it. */
  lemma KeptCoversWindows(c: IndicatorConfig, w: int)
    requires w == c.smaWindow || w == c.emaWindow || w == c.rsiPeriod + 1 || w == c.volatilityWindow
             || w == c.trendWindow || w == c.zscoreWindow || w == c.ewmaSpan
    requires w >= 1
    ensures c.HistoryMaxlen() + 1 >= 8 * w + 2
  {
  }

  /** And nothing more: eight times the longest window and one. */
  lemma KeepsNoMore(c: IndicatorConfig)
    ensures c.HistoryMaxlen() == 8 * c.Longest() + 1
    ensures c.Longest() in {c.smaWindow, c.emaWindow, c.rsiPeriod + 1, c.volatilityWindow, c.trendWindow, c.zscoreWindow, c.ewmaSpan}
  {
  }

  lemma CandidatesAreLast(prices: seq<real>, price: real, c: IndicatorConfig)
    requires c.HistoryMaxlen() >= 0
    ensures Candidates(prices, price, c)
            == if |prices| <= c.HistoryMaxlen() then prices + [price] else Last(prices + [price], c.HistoryMaxlen() + 1)
  {
  }

  /** Over a price series of any length, the windowed indicators come out as if nothing had been dropped. */
  lemma WindowedReadingsExact(prices: seq<real>, price: real, c: IndicatorConfig)
    requires c.Longest() >= 1
    ensures var all, kept := prices + [price], Candidates(prices, price, c);
            && Sma(kept, c.smaWindow) == Sma(all, c.smaWindow)
            && Volatility(kept, c.volatilityWindow) == Volatility(all, c.volatilityWindow)
            && Trend(kept, c.trendWindow) == Trend(all, c.trendWindow)
            && ZScoreAnomaly(kept, c.zscoreWindow, c.zscoreThreshold) == ZScoreAnomaly(all, c.zscoreWindow, c.zscoreThreshold)
  {
    hide Sma, Volatility, Trend, ZScoreAnomaly, Kept;
    CandidatesAreLast(prices, price, c);
    var all, m := prices + [price], c.HistoryMaxlen() + 1;
    if |prices| > c.HistoryMaxlen() {
      WindowsAreExact(all, m, c.smaWindow, c.zscoreThreshold);
      WindowsAreExact(all, m, c.volatilityWindow, c.zscoreThreshold);
      WindowsAreExact(all, m, c.trendWindow, c.zscoreThreshold);
      WindowsAreExact(all, m, c.zscoreWindow, c.zscoreThreshold);
    }
  }

  /**
    What an accepted event is published with: the windowed indicators, each over its own window of the
    full price series, the recursive ones over the kept prices; it is anomalous if either test says so.
   */
  lemma JudgedReadings(prices: seq<real>, price: real, c: IndicatorConfig)
    requires Judged(prices, price, c).Ok?
    ensures var a, all, kept := Judged(prices, price, c).value, prices + [price], Last(prices + [price], KeptAndOwn(prices, c));
            && Sma(all, c.smaWindow) == Ok(a.sma)
            && Volatility(all, c.volatilityWindow) == Ok(a.volatility)
            && Trend(all, c.trendWindow) == Ok(a.trend)
            && ZScoreAnomaly(all, c.zscoreWindow, c.zscoreThreshold) == Ok(a.zscoreAnomaly)
            && Ema(kept, c.emaWindow) == Ok(a.ema)
            && Rsi(kept, c.rsiPeriod) == Ok(a.rsi)
            && EwmaAnomaly(kept, c.ewmaSpan, c.ewmaThreshold) == Ok(a.ewmaAnomaly)
            && (a.Anomaly() <==> a.zscoreAnomaly == Some(true) || a.ewmaAnomaly == Some(true))
  {
    hide Sma, Ema, Rsi, Volatility, Trend, ZScoreAnomaly, EwmaAnomaly, Kept;
    AcceptedIsSound(prices, price, c);
    WindowedReadingsExact(prices, price, c);
    CandidatesAreLast(prices, price, c);
  }

  /** How many prices an event is judged by. */
  function KeptAndOwn(prices: seq<real>, c: IndicatorConfig): (n: nat)
    ensures n <= |prices| + 1
  {
    if 0 <= c.HistoryMaxlen() < |prices| then c.HistoryMaxlen() + 1 else |prices| + 1
  }

  lemma AcceptedIsSound(prices: seq<real>, price: real, c: IndicatorConfig)
    requires Judged(prices, price, c).Ok?
    ensures c.Longest() >= 1
  {
    hide Analyse, Volatility, Candidates;
    AnalyseAccepts(Candidates(prices, price, c), c);
  }

  /** The recursive indicators over the kept prices are off by at most the geometric terms. */
  lemma RecursiveReadingsClose(prices: seq<real>, price: real, c: IndicatorConfig, lo: real, hi: real)
    requires c.emaWindow >= 1 && c.rsiPeriod >= 1 && c.ewmaSpan >= 1
    requires |prices| > c.HistoryMaxlen() && Between(prices + [price], lo, hi)
    ensures var all, kept, m := prices + [price], Candidates(prices, price, c), c.HistoryMaxlen() + 1;
            && kept == Last(all, m)
            && Ema(all, c.emaWindow).value.Some? && Ema(kept, c.emaWindow).value.Some?
            && Gap(Ema(all, c.emaWindow).value.value, Ema(kept, c.emaWindow).value.value)
               <= Product(Pow(1.0 - EmaAlpha(c.emaWindow), m - c.emaWindow), hi - lo)
            && Gap(AvgGain(all, c.rsiPeriod), AvgGain(kept, c.rsiPeriod))
               <= Product(Pow(1.0 - WilderAlpha(c.rsiPeriod), m - 1 - c.rsiPeriod), hi - lo)
            && Gap(AvgLoss(all, c.rsiPeriod), AvgLoss(kept, c.rsiPeriod))
               <= Product(Pow(1.0 - WilderAlpha(c.rsiPeriod), m - 1 - c.rsiPeriod), hi - lo)
  {
    hide *;
    KeptCoversWindows(c, c.emaWindow);
    KeptCoversWindows(c, c.rsiPeriod + 1);
    CandidatesAreLast(prices, price, c);
    var all, m := prices + [price], c.HistoryMaxlen() + 1;
    EmaError(all, m, c.emaWindow, lo, hi);
    WilderError(all, m, c.rsiPeriod, lo, hi);
  }

  // ---------------------------------------------------------------------------
  // Which events are accepted
  // ---------------------------------------------------------------------------

  /** The prices volatility divides by when an event arrives after `prices`. */
  predicate BaseIsPositive(prices: seq<real>, window: int) {
    |prices| + 1 < window || forall i | 0 <= i < |prices| && i >= |prices| - (window - 1) :: prices[i] > 0.0
  }

  lemma VolatilityAccepts(prices: seq<real>, price: real, window: int)
    requires window >= 2
    ensures Volatility(prices + [price], window).Ok? <==> BaseIsPositive(prices, window)
  {
    hide Variance, Returns;
    var all := prices + [price];
    if |all| >= window {
      var d, last := |all| - window, Last(all, window);
      assert forall i | 0 <= i < window :: last[i] == all[d + i];
      if PositiveBase(last) {
        forall i | 0 <= i < |prices| && i >= |prices| - (window - 1)
          ensures prices[i] > 0.0
        {
          assert last[i - d] == prices[i];
        }
      }
    }
  }

  lemma AnalyseAccepts(prices: seq<real>, c: IndicatorConfig)
    ensures Analyse(prices, c).Ok? <==> c.Sound() && Volatility(prices, c.volatilityWindow).Ok?
  {
    hide Mean, Seeded, AvgGain, AvgLoss, RsiOf, Variance, Returns, Slope, Deviates, EwmaMean, EwmaVariance, Last, PositiveBase;
  }

  /** An event is accepted exactly when the configuration is sound and no price volatility divides by is zero or less. */
  lemma JudgedAccepts(prices: seq<real>, price: real, c: IndicatorConfig)
    ensures Judged(prices, price, c).Ok? <==> c.Sound() && BaseIsPositive(prices, c.volatilityWindow)
  {
    hide Analyse, Volatility, BaseIsPositive, Candidates, IndicatorConfig.HistoryMaxlen;
    AnalyseAccepts(Candidates(prices, price, c), c);
    if c.Sound() {
      WindowedReadingsExact(prices, price, c);
      VolatilityAccepts(prices, price, c.volatilityWindow);
    }
  }

  /** Each price was accepted after the ones before it. */
  predicate Accepted(prices: seq<real>, c: IndicatorConfig) {
    forall i | 0 <= i < |prices| :: Judged(prices[..i], prices[i], c).Ok?
  }

  lemma PositiveAccepted(prices: seq<real>, c: IndicatorConfig)
    requires AllPositive(prices) && c.Sound()
    ensures Accepted(prices, c)
  {
    hide Judged;
    forall i | 0 <= i < |prices|
      ensures Judged(prices[..i], prices[i], c).Ok?
    {
      JudgedAccepts(prices[..i], prices[i], c);
    }
  }

  lemma AcceptedMore(prices: seq<real>, price: real, c: IndicatorConfig)
    requires Accepted(prices, c)
    ensures Accepted(prices + [price], c) <==> Judged(prices, price, c).Ok?
  {
    hide Judged;
    var all, n := prices + [price], |prices|;
    assert all[..n] == prices && all[n] == price;
    forall i | 0 <= i < n
      ensures all[..i] == prices[..i] && all[i] == prices[i]
    {
    }
  }

  /** No event is accepted any more, whatever its price. */
  ghost predicate Stuck(prices: seq<real>, c: IndicatorConfig) {
    forall price :: Judged(prices, price, c).Err?
  }

  /** A price volatility divides by now, or would have refused an earlier event for. */
  lemma OldPricesPositive(prices: seq<real>, c: IndicatorConfig, i: nat)
    requires Accepted(prices, c) && c.Sound() && i + c.volatilityWindow <= |prices|
    ensures prices[i] > 0.0
  {
    hide Judged;
    var j := i + c.volatilityWindow - 1;
    JudgedAccepts(prices[..j], prices[j], c);
    assert prices[..j][i] == prices[i];
  }

  /** A symbol whose events were all accepted is stuck exactly when the window is full and one of its prices was zero or less. */
  lemma StuckWhen(prices: seq<real>, c: IndicatorConfig)
    requires Accepted(prices, c)
    ensures Stuck(prices, c) <==> !c.Sound() || (|prices| + 1 >= c.volatilityWindow && !AllPositive(prices))
  {
    hide Judged, Accepted;
    forall price
      ensures Judged(prices, price, c).Ok? <==> c.Sound() && BaseIsPositive(prices, c.volatilityWindow)
    {
      JudgedAccepts(prices, price, c);
    }
    assert Stuck(prices, c) <==> Judged(prices, 1.0, c).Err?;
    if c.Sound() && |prices| + 1 >= c.volatilityWindow && !AllPositive(prices) {
      var i :| 0 <= i < |prices| && prices[i] <= 0.0;
      if i + c.volatilityWindow <= |prices| {
        OldPricesPositive(prices, c, i);
      }
    }
  }

  /** One price of zero or less wedges its symbol: not even the rest of one volatility window is accepted after it. */
  lemma WedgedAfter(prices: seq<real>, more: seq<real>, c: IndicatorConfig)
    requires Accepted(prices + more, c) && more != [] && !AllPositive(prices)
    ensures |prices + more| < c.volatilityWindow
  {
    hide Judged;
    var all, n := prices + more, |prices + more| - 1;
    var before := all[..n];
    forall i | 0 <= i < n
      ensures before[..i] == all[..i] && before[i] == all[i]
    {
    }
    var i :| 0 <= i < |prices| && prices[i] <= 0.0;
    assert before[i] == prices[i];
    assert Judged(before, all[n], c).Ok?;
    StuckWhen(before, c);
  }

  /** At least `n` more events can still be accepted. */
  ghost predicate CanTake(prices: seq<real>, n: nat, c: IndicatorConfig) {
    exists more: seq<real> :: |more| >= n && Accepted(prices + more, c)
  }

  /** A symbol can go on for ever exactly when none of its prices so far was zero or less. */
  lemma GoesOnForEver(prices: seq<real>, c: IndicatorConfig)
    requires Accepted(prices, c) && c.Sound()
    ensures AllPositive(prices) <==> forall n :: CanTake(prices, n, c)
  {
    hide Accepted;
    if AllPositive(prices) {
      forall n: nat
        ensures CanTake(prices, n, c)
      {
        var more := seq(n, _ => 1.0);
        PositiveAccepted(prices + more, c);
      }
    } else if CanTake(prices, c.volatilityWindow, c) {
      var more: seq<real> :| |more| >= c.volatilityWindow && Accepted(prices + more, c);
      WedgedAfter(prices, more, c);
    }
  }

  // ---------------------------------------------------------------------------
  // The default configuration
  // ---------------------------------------------------------------------------

  lemma {:induction false} PowAdd(x: real, a: nat, b: nat)
    ensures Pow(x, a + b) == Product(Pow(x, a), Pow(x, b))
  {
    if a > 0 {
      PowAdd(x, a - 1, b);
      assert Product(x, Product(Pow(x, a - 1), Pow(x, b))) == Product(Product(x, Pow(x, a - 1)), Pow(x, b));
    }
  }

  lemma SmallerProduct(x: real, y: real, a: real, b: real)
    requires 0.0 <= x <= a && 0.0 <= y <= b
    ensures 0.0 <= Product(x, y) <= Product(a, b)
  {
    Nonnegative(x, y);
    Nonnegative(a - x, b);
    Nonnegative(x, b - y);
    assert a * b - x * y == (a - x) * b + x * (b - y);
  }

  /** Two thirds to the power of 45, the default's steps after its window, is below a ten-millionth. */
  lemma TwoThirdsTo45()
    ensures Pow(2.0 / 3.0, 45) < 0.0000001
  {
    var t := 2.0 / 3.0;
    assert Pow(t, 0) == 1.0 && Pow(t, 1) == t && Pow(t, 2) == 4.0 / 9.0 && Pow(t, 3) == 8.0 / 27.0;
    PowAdd(t, 2, 3);
    assert Pow(t, 5) == 32.0 / 243.0;
    PowBetween(t, 5);
    PowAdd(t, 5, 5);
    SmallerProduct(Pow(t, 5), Pow(t, 5), 0.1317, 0.1317);
    assert Pow(t, 10) <= 0.01735;
    PowAdd(t, 10, 5);
    SmallerProduct(Pow(t, 10), Pow(t, 5), 0.01735, 0.1317);
    assert Pow(t, 15) <= 0.002285;
    PowAdd(t, 15, 15);
    SmallerProduct(Pow(t, 15), Pow(t, 15), 0.002285, 0.002285);
    assert Pow(t, 30) <= 0.00000523;
    PowAdd(t, 30, 15);
    SmallerProduct(Pow(t, 30), Pow(t, 15), 0.00000523, 0.002285);
    assert Pow(t, 45) <= 0.000000012;
  }

  /** With the default configuration the moving average is off by less than a ten-millionth of the price range. */
  lemma DefaultEmaError(prices: seq<real>, price: real, lo: real, hi: real)
    requires |prices| > DEFAULT_CONFIG.HistoryMaxlen() && Between(prices + [price], lo, hi)
    ensures DEFAULT_CONFIG.HistoryMaxlen() == 49
    ensures var all, kept := prices + [price], Candidates(prices, price, DEFAULT_CONFIG);
            && Ema(all, 5).value.Some? && Ema(kept, 5).value.Some?
            && Gap(Ema(all, 5).value.value, Ema(kept, 5).value.value) <= Product(0.0000001, hi - lo)
  {
    assert DEFAULT_CONFIG.HistoryMaxlen() == 49 && 1.0 - EmaAlpha(5) == 2.0 / 3.0;
    assert lo <= (prices + [price])[0] <= hi;
    RecursiveReadingsClose(prices, price, DEFAULT_CONFIG, lo, hi);
    TwoThirdsTo45();
    hide *;
    SmallerFactor(Pow(2.0 / 3.0, 45), 0.0000001, hi - lo);
  }

  lemma SmallerFactor(x: real, y: real, d: real)
    requires x <= y && d >= 0.0
    ensures Product(x, d) <= Product(y, d)
  {
    Nonnegative(y - x, d);
    assert (y - x) * d == y * d - x * d;
  }

  /**
    With the default configuration the strength index can be off by 50, on positive prices that the
    processor accepts one after the other.
   */
  lemma DefaultRsiInexact()
    ensures exists all: seq<real> ::
              && |all| == DEFAULT_CONFIG.HistoryMaxlen() + 2
              && AllPositive(all) && Accepted(all, DEFAULT_CONFIG)
              && Rsi(all, 5) == Ok(Some(100.0)) && Rsi(Last(all, DEFAULT_CONFIG.HistoryMaxlen() + 1), 5) == Ok(Some(50.0))
  {
    hide Jump, Judged, Rsi;
    assert DEFAULT_CONFIG.HistoryMaxlen() == 49 && DEFAULT_CONFIG.Sound();
    RsiJump(5, 50);
    var v := Jump(1.0, 2.0, 50);
    assert |v| == 51 && AllPositive(v);
    PositiveAccepted(v, DEFAULT_CONFIG);
  }

  // ---------------------------------------------------------------------------
  // What a run of events leaves behind
  // ---------------------------------------------------------------------------

  /** Appending to a bounded queue keeps what the queue would keep of everything ever appended. */
  lemma KeptMore(prices: seq<real>, price: real, n: int)
    ensures Kept(Kept(prices, n) + [price], n) == Kept(prices + [price], n)
  {
  }
}
