/**
  The alerting rules: which alerts a signal or an insight gives rise to, and the keys that tell
  alerts apart. The hash over a key's text is left out: it is taken to be injective.
 */
module Rules {
  import opened Wrappers
  import opened Keys

  datatype RuleConfig = RuleConfig(
    overbought: real, oversold: real, volatility: real, spike: real, highSpike: real)

  const DEFAULT_RULES := RuleConfig(70.0, 30.0, 0.05, 0.75, 0.9)

  datatype Severity = Medium | High | Critical

  datatype Alert = Alert(symbol: string, rule: string, severity: Severity, dedupeKey: string, ts: string, corr: Option<string>)

  /** A signal; an indicator that is missing or not a number is `None`. */
  datatype Signal = Signal(
    symbol: string, eventId: string, ts: string, corr: Option<string>,
    anomaly: bool, rsi: Option<real>, volatility: Option<real>)

  datatype Insight = Insight(symbol: string, eventId: string, ts: string, corr: Option<string>, sentiment: real)

  function DedupeKey(kind: string, eventId: string, symbol: string, rule: string, ts: string): string {
    kind + ":" + eventId + ":" + symbol + ":" + rule + ":" + ts
  }

  function SignalAlert(s: Signal, rule: string, severity: Severity): Alert {
    Alert(s.symbol, rule, severity, DedupeKey("signal", s.eventId, s.symbol, rule, s.ts), s.ts, s.corr)
  }

  // ---------------------------------------------------------------------------
  // What fires
  // ---------------------------------------------------------------------------

  predicate AtLeast(x: Option<real>, limit: real) {
    x.Some? && x.value >= limit
  }

  predicate AtMost(x: Option<real>, limit: real) {
    x.Some? && x.value <= limit
  }

  /** The rules a signal can break, in the order they are checked. */
  const SIGNAL_RULES := ["anomaly_flag", "rsi_overbought", "rsi_oversold", "volatility_threshold_breach"]

  /** When each rule fires; being oversold is only looked at when the signal is not overbought. */
  predicate Fires(c: RuleConfig, s: Signal, rule: string) {
    if rule == "anomaly_flag" then s.anomaly
    else if rule == "rsi_overbought" then AtLeast(s.rsi, c.overbought)
    else if rule == "rsi_oversold" then AtMost(s.rsi, c.oversold) && !AtLeast(s.rsi, c.overbought)
    else rule == "volatility_threshold_breach" && AtLeast(s.volatility, c.volatility)
  }

  function SeverityOf(rule: string): Severity {
    if rule == "anomaly_flag" then Critical else if rule == "rsi_oversold" then Medium else High
  }

  /** The alerts of the rules in `rules` that fire, in order. */
  function Firing(c: RuleConfig, s: Signal, rules: seq<string>): seq<Alert> {
    if rules == [] then []
    else
      var rule := rules[|rules| - 1];
      Firing(c, s, rules[..|rules| - 1]) + (if Fires(c, s, rule) then [SignalAlert(s, rule, SeverityOf(rule))] else [])
  }

  lemma OneMoreRule(c: RuleConfig, s: Signal, k: nat)
    requires k < |SIGNAL_RULES|
    ensures Firing(c, s, SIGNAL_RULES[..k + 1])
            == Firing(c, s, SIGNAL_RULES[..k])
               + (if Fires(c, s, SIGNAL_RULES[k]) then [SignalAlert(s, SIGNAL_RULES[k], SeverityOf(SIGNAL_RULES[k]))] else [])
  {
    assert SIGNAL_RULES[..k + 1][..k] == SIGNAL_RULES[..k];
  }

  method EvaluateSignal(c: RuleConfig, s: Signal) returns (alerts: seq<Alert>)
    ensures alerts == Firing(c, s, SIGNAL_RULES)
  {
    alerts := [];
    if s.anomaly {
      alerts := alerts + [SignalAlert(s, "anomaly_flag", Critical)];
    }
    OneMoreRule(c, s, 0);
    if s.rsi.Some? && s.rsi.value >= c.overbought {
      alerts := alerts + [SignalAlert(s, "rsi_overbought", High)];
    } else if s.rsi.Some? && s.rsi.value <= c.oversold {
      alerts := alerts + [SignalAlert(s, "rsi_oversold", Medium)];
    }
    OneMoreRule(c, s, 1);
    OneMoreRule(c, s, 2);
    assert alerts == Firing(c, s, SIGNAL_RULES[..3]);
    if s.volatility.Some? && s.volatility.value >= c.volatility {
      alerts := alerts + [SignalAlert(s, "volatility_threshold_breach", High)];
    }
    OneMoreRule(c, s, 3);
    assert SIGNAL_RULES[..4] == SIGNAL_RULES;
  }

  function Abs(x: real): real {
    if x < 0.0 then -x else x
  }

  method EvaluateInsight(c: RuleConfig, i: Insight) returns (alerts: seq<Alert>)
    ensures |alerts| == (if i.sentiment >= c.spike || i.sentiment <= -c.spike then 1 else 0)
    ensures alerts != [] ==>
              && alerts[0].rule == "sentiment_spike"
              && alerts[0].symbol == i.symbol && alerts[0].ts == i.ts && alerts[0].corr == i.corr
              && (alerts[0].severity == Critical <==> i.sentiment >= c.highSpike || i.sentiment <= -c.highSpike)
              && alerts[0].severity != Medium
              && alerts[0].dedupeKey == DedupeKey("insight", i.eventId, i.symbol, "sentiment_spike", i.ts)
  {
    if Abs(i.sentiment) < c.spike {
      return [];
    }
    var severity := if Abs(i.sentiment) >= c.highSpike then Critical else High;
    var key := DedupeKey("insight", i.eventId, i.symbol, "sentiment_spike", i.ts);
    alerts := [Alert(i.symbol, "sentiment_spike", severity, key, i.ts, i.corr)];
  }

  // ---------------------------------------------------------------------------
  // Exactly the broken rules, each under its own key
  // ---------------------------------------------------------------------------

  predicate DistinctStrings(xs: seq<string>) {
    forall i, j | 0 <= i < j < |xs| :: xs[i] != xs[j]
  }

  predicate DistinctKeys(alerts: seq<Alert>) {
    forall i, j | 0 <= i < j < |alerts| :: alerts[i].dedupeKey != alerts[j].dedupeKey
  }

  /** An alert is among those fired exactly when its rule was checked and fires. */
  lemma {:induction false} FiringIsExact(c: RuleConfig, s: Signal, rules: seq<string>, a: Alert)
    ensures a in Firing(c, s, rules) <==> a.rule in rules && Fires(c, s, a.rule) && a == SignalAlert(s, a.rule, SeverityOf(a.rule))
  {
    if rules != [] {
      var n := |rules| - 1;
      FiringIsExact(c, s, rules[..n], a);
      assert rules == rules[..n] + [rules[n]];
    }
  }

  lemma SameFrame(x: string, a: string, b: string, y: string)
    requires x + a + y == x + b + y
    ensures a == b
  {
    var p, q := x + a + y, x + b + y;
    assert |a| == |b|;
    assert p[|x|..|x| + |a|] == a && q[|x|..|x| + |b|] == b;
  }

  /** Different rules broken by one event have different keys. */
  lemma RulesHaveOwnKeys(s: Signal, r1: string, r2: string)
    requires r1 != r2
    ensures DedupeKey("signal", s.eventId, s.symbol, r1, s.ts) != DedupeKey("signal", s.eventId, s.symbol, r2, s.ts)
  {
    var before, after := "signal:" + s.eventId + ":" + s.symbol + ":", ":" + s.ts;
    assert DedupeKey("signal", s.eventId, s.symbol, r1, s.ts) == before + r1 + after;
    assert DedupeKey("signal", s.eventId, s.symbol, r2, s.ts) == before + r2 + after;
    if before + r1 + after == before + r2 + after {
      SameFrame(before, r1, r2, after);
    }
  }

  lemma {:induction false} FiredKeysDiffer(c: RuleConfig, s: Signal, rules: seq<string>)
    requires DistinctStrings(rules)
    ensures DistinctKeys(Firing(c, s, rules))
  {
    hide Fires, DedupeKey;
    if rules != [] {
      var n := |rules| - 1;
      var fired := Firing(c, s, rules[..n]);
      FiredKeysDiffer(c, s, rules[..n]);
      forall i | 0 <= i < |fired|
        ensures fired[i].dedupeKey != SignalAlert(s, rules[n], SeverityOf(rules[n])).dedupeKey
      {
        FiringIsExact(c, s, rules[..n], fired[i]);
        RulesHaveOwnKeys(s, fired[i].rule, rules[n]);
      }
    }
  }

  /** The alerts of one signal never suppress one another, and no rule is reported that was not broken. */
  lemma SignalAlerts(c: RuleConfig, s: Signal, a: Alert)
    ensures a in Firing(c, s, SIGNAL_RULES)
            <==> Fires(c, s, a.rule) && a == SignalAlert(s, a.rule, SeverityOf(a.rule))
    ensures DistinctKeys(Firing(c, s, SIGNAL_RULES))
  {
    FiringIsExact(c, s, SIGNAL_RULES, a);
    FiredKeysDiffer(c, s, SIGNAL_RULES);
  }

  /** When each alert of a signal is raised and how severe it is; there are no others. */
  lemma RaisedWhen(c: RuleConfig, s: Signal)
    ensures var fired := Firing(c, s, SIGNAL_RULES);
            && (SignalAlert(s, "anomaly_flag", Critical) in fired <==> s.anomaly)
            && (SignalAlert(s, "rsi_overbought", High) in fired <==> s.rsi.Some? && s.rsi.value >= c.overbought)
            && (SignalAlert(s, "rsi_oversold", Medium) in fired
                <==> s.rsi.Some? && s.rsi.value <= c.oversold && s.rsi.value < c.overbought)
            && (SignalAlert(s, "volatility_threshold_breach", High) in fired
                <==> s.volatility.Some? && s.volatility.value >= c.volatility)
            && forall a | a in fired ::
                 a in {SignalAlert(s, "anomaly_flag", Critical), SignalAlert(s, "rsi_overbought", High),
                       SignalAlert(s, "rsi_oversold", Medium), SignalAlert(s, "volatility_threshold_breach", High)}
  {
    SignalAlerts(c, s, SignalAlert(s, "anomaly_flag", Critical));
    SignalAlerts(c, s, SignalAlert(s, "rsi_overbought", High));
    SignalAlerts(c, s, SignalAlert(s, "rsi_oversold", Medium));
    SignalAlerts(c, s, SignalAlert(s, "volatility_threshold_breach", High));
    hide DedupeKey, Firing;
    forall a | a in Firing(c, s, SIGNAL_RULES)
      ensures a == SignalAlert(s, a.rule, SeverityOf(a.rule)) && Fires(c, s, a.rule)
    {
      SignalAlerts(c, s, a);
    }
  }

  // ---------------------------------------------------------------------------
  // Keys of different events
  // ---------------------------------------------------------------------------

  /** Events of different kinds, or with different ids free of colons, never share a key. */
  lemma EventsHaveOwnKeys(k1: string, id1: string, s1: string, r1: string, t1: string,
                          k2: string, id2: string, s2: string, r2: string, t2: string)
    requires ':' !in k1 && ':' !in k2 && ':' !in id1 && ':' !in id2
    requires k1 != k2 || id1 != id2
    ensures DedupeKey(k1, id1, s1, r1, t1) != DedupeKey(k2, id2, s2, r2, t2)
  {
    var x1, x2 := s1 + ":" + r1 + ":" + t1, s2 + ":" + r2 + ":" + t2;
    assert DedupeKey(k1, id1, s1, r1, t1) == k1 + ":" + (id1 + ":" + x1);
    assert DedupeKey(k2, id2, s2, r2, t2) == k2 + ":" + (id2 + ":" + x2);
    if DedupeKey(k1, id1, s1, r1, t1) == DedupeKey(k2, id2, s2, r2, t2) {
      FirstColon(k1, k2, id1 + ":" + x1, id2 + ":" + x2);
      FirstColon(id1, id2, x1, x2);
    }
  }

  /** As long as only the timestamps have colons in them, a key tells all five of its parts. */
  lemma KeyTells(k1: string, id1: string, s1: string, r1: string, t1: string,
                 k2: string, id2: string, s2: string, r2: string, t2: string)
    requires ':' !in k1 + id1 + s1 + r1 && ':' !in k2 + id2 + s2 + r2
    ensures DedupeKey(k1, id1, s1, r1, t1) == DedupeKey(k2, id2, s2, r2, t2)
            <==> k1 == k2 && id1 == id2 && s1 == s2 && r1 == r2 && t1 == t2
  {
    if DedupeKey(k1, id1, s1, r1, t1) == DedupeKey(k2, id2, s2, r2, t2) {
      assert DedupeKey(k1, id1, s1, r1, t1) == k1 + ":" + (id1 + ":" + (s1 + ":" + (r1 + ":" + t1)));
      assert DedupeKey(k2, id2, s2, r2, t2) == k2 + ":" + (id2 + ":" + (s2 + ":" + (r2 + ":" + t2)));
      FirstColon(k1, k2, id1 + ":" + (s1 + ":" + (r1 + ":" + t1)), id2 + ":" + (s2 + ":" + (r2 + ":" + t2)));
      FirstColon(id1, id2, s1 + ":" + (r1 + ":" + t1), s2 + ":" + (r2 + ":" + t2));
      FirstColon(s1, s2, r1 + ":" + t1, r2 + ":" + t2);
      FirstColon(r1, r2, t1, t2);
    }
  }

  /**
    Every signal whose id has a colon in it shares its keys with another event: what follows the
    colon can as well belong to the symbol. One event's alert would suppress the other's.
   */
  lemma ColonsCollide(id: string, rest: string, symbol: string, rule: string, ts: string)
    ensures id + ":" + rest != id
    ensures DedupeKey("signal", id + ":" + rest, symbol, rule, ts) == DedupeKey("signal", id, rest + ":" + symbol, rule, ts)
  {
    var before, after := "signal" + ":" + id, ":" + symbol + ":" + rule + ":" + ts;
    assert DedupeKey("signal", id + ":" + rest, symbol, rule, ts) == before + ":" + rest + after;
    assert DedupeKey("signal", id, rest + ":" + symbol, rule, ts) == before + ":" + rest + after;
  }
}
