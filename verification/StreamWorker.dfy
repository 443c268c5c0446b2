/**
  The stream processor and the worker around it: each market event is judged against the prices
  kept for its symbol, published as a signal under its own key, marked as done and only then added
  to the prices. A call to the store, the cache or the bus before the price is added may fail,
  and a failed write may or may not have taken effect; the clock stands still during a poll.
 */
module StreamWorker {
  import opened Wrappers
  import opened Bus
  import opened Cache
  import opened Alerting
  import opened PriceHistory
  import A = AlertingWorker
  import L = BusLedger

  const MAX_CACHED_HISTORY_ROWS := 500

  datatype MarketEvent = MarketEvent(symbol: string, ts: string, source: string, price: real, corr: Option<string>)

  /** The text a market event is known by; its hash is taken to be injective and left out. */
  function MarketEventKey(e: MarketEvent): string {
    e.symbol + ":" + e.ts + ":" + e.source
  }

  function DedupeKey(e: MarketEvent): string {
    "stream:processed:" + MarketEventKey(e)
  }

  // ---------------------------------------------------------------------------
  // Prices
  // ---------------------------------------------------------------------------

  /** An event whose price was added, and when. */
  datatype Commitment = Commitment(event: MarketEvent, at: real)

  /** The prices of the committed events of one symbol, in order. */
  function PricesOf(committed: seq<Commitment>, symbol: string): seq<real> {
    if committed == [] then []
    else
      var e := committed[|committed| - 1].event;
      PricesOf(committed[..|committed| - 1], symbol) + (if e.symbol == symbol then [e.price] else [])
  }

  lemma PricesMore(committed: seq<Commitment>, c: Commitment, symbol: string)
    ensures PricesOf(committed + [c], symbol)
            == if c.event.symbol == symbol then PricesOf(committed, symbol) + [c.event.price] else PricesOf(committed, symbol)
  {
    assert (committed + [c])[..|committed|] == committed;
    assert PricesOf(committed, symbol) + [] == PricesOf(committed, symbol);
  }

  class StreamProcessor {
    const config: IndicatorConfig
    var history: map<string, seq<real>>
    /** The events committed so far. */
    ghost var committed: seq<Commitment>

    function PriceHistory(symbol: string): seq<real>
      reads this
    {
      if symbol in history then history[symbol] else []
    }

    /** The prices kept for a symbol are the newest ones of its committed events. */
    ghost predicate Valid()
      reads this
    {
      forall symbol :: PriceHistory(symbol) == Kept(PricesOf(committed, symbol), config.HistoryMaxlen())
    }

    constructor (config: IndicatorConfig)
      ensures Valid() && committed == [] && this.config == config
    {
      this.config := config;
      history := map[];
      committed := [];
    }

    /** The indicators of an event; nothing is remembered. */
    function Process(e: MarketEvent): (r: Result<Analysis, Indicators.IndicatorError>)
      requires Valid()
      reads this
      ensures r == Judged(PricesOf(committed, e.symbol), e.price, config)
    {
      assert PriceHistory(e.symbol) == Kept(PricesOf(committed, e.symbol), config.HistoryMaxlen());
      Analyse(PriceHistory(e.symbol) + [e.price], config)
    }

    method Commit(e: MarketEvent, ghost now: real)
      requires Valid()
      modifies this
      ensures Valid() && committed == old(committed) + [Commitment(e, now)]
      ensures forall s :: s != e.symbol ==> PriceHistory(s) == old(PriceHistory(s))
    {
      hide Kept;
      ghost var before := committed;
      var n := config.HistoryMaxlen();
      var prices := Kept(PriceHistory(e.symbol) + [e.price], n);
      assert PriceHistory(e.symbol) == Kept(PricesOf(before, e.symbol), n);
      KeptMore(PricesOf(before, e.symbol), e.price, n);
      history := history[e.symbol := prices];
      committed := committed + [Commitment(e, now)];
      forall symbol
        ensures PriceHistory(symbol) == Kept(PricesOf(committed, symbol), n)
      {
        PricesMore(before, Commitment(e, now), symbol);
        assert old(PriceHistory(symbol)) == Kept(PricesOf(before, symbol), n);
      }
    }
  }

  // ---------------------------------------------------------------------------
  // What handling a message does
  // ---------------------------------------------------------------------------

  function SnapshotKey(symbol: string): string {
    "snapshot:" + symbol
  }

  /** The call that fails, if one does, and whether a failed write took effect all the same. */
  datatype Fault =
    | NoFault
    | AtIngest
    | AtSnapshot(written: bool)
    | AtAppend(written: bool)
    | AtPublish(sent: bool)
    | AtMark(written: bool)

  /** How the worker was put together. */
  datatype Setup = Setup(
    config: IndicatorConfig, topic: string, subscription: string, signalTopic: string,
    parse: string -> Option<MarketEvent>, render: (MarketEvent, Analysis) -> string)

  datatype StreamCounters = StreamCounters(seen: int, processed: int, duplicates: int, signals: int, deadLettered: int)

  datatype StreamState = StreamState(bus: BusState, cache: CacheState, committed: seq<Commitment>, metrics: StreamCounters)

  function Sent(fault: Fault): bool {
    fault.NoFault? || fault.AtMark? || (fault.AtPublish? && fault.sent)
  }

  /** The cache after an attempt at an event. */
  function Noted(c: CacheState, e: MarketEvent, row: string, fault: Fault, now: real): CacheState {
    if fault.AtIngest? then c
    else
      var c1 := if fault == AtSnapshot(false) then c else Stored(c, SnapshotKey(e.symbol), Text(row), None, now);
      if fault.AtSnapshot? then c1
      else
        var c2 := if fault == AtAppend(false) then c1 else Appended(c1, e.symbol, row, MAX_CACHED_HISTORY_ROWS, now);
        if fault == NoFault || fault == AtMark(true) then Stored(c2, DedupeKey(e), Flag(true), Some(IDEMPOTENCY_TTL), now)
        else c2
  }

  function Verdict(s: Setup, st: StreamState, e: MarketEvent): Result<Analysis, Indicators.IndicatorError> {
    Judged(PricesOf(st.committed, e.symbol), e.price, s.config)
  }

  /** An attempt at an event: whether it succeeded, and what it left behind. */
  function Tried(s: Setup, st: StreamState, e: MarketEvent, fault: Fault, now: real): (StreamState, bool) {
    var verdict := Verdict(s, st, e);
    if verdict.Err? then (st, false)
    else
      var row, ok := s.render(e, verdict.value), fault == NoFault;
      (StreamState(
         if Sent(fault) then Published(st.bus, s.signalTopic, row, DedupeKey(e), e.corr) else st.bus,
         Noted(st.cache, e, row, fault, now),
         if ok then st.committed + [Commitment(e, now)] else st.committed,
         st.metrics.(signals := st.metrics.signals + (if ok || fault.AtMark? then 1 else 0),
                     processed := st.metrics.processed + (if ok then 1 else 0))),
       ok)
  }

  function Suppressed(st: StreamState, m: Message): StreamState {
    st.(bus := Completed(st.bus, m), metrics := st.metrics.(duplicates := st.metrics.duplicates + 1))
  }

  function Buried(st: StreamState, m: Message): StreamState {
    st.(bus := DeadLettered(st.bus, m), metrics := st.metrics.(deadLettered := st.metrics.deadLettered + 1))
  }

  /** What becomes of one message. */
  function Handled(s: Setup, st: StreamState, m: Message, fault: Fault, now: real): (StreamState, Outcome) {
    var parsed := s.parse(m.body);
    if parsed.None? then (Buried(st, m), Dead)
    else
      var e := parsed.value;
      var read := st.(cache := Evicted(st.cache, DedupeKey(e), now));
      if Marked(st.cache, DedupeKey(e), now) then (Suppressed(read, m), Duplicate)
      else
        var (tried, ok) := Tried(s, read, e, fault, now);
        if ok then (tried.(bus := Completed(tried.bus, m)), Processed) else (Buried(tried, m), Dead)
  }

  // ---------------------------------------------------------------------------
  // Runs
  // ---------------------------------------------------------------------------

  /** A message handled by the worker, or anything that anyone does to the bus or the cache meanwhile. */
  datatype Step = Handle(m: Message, fault: Fault, now: real) | OnBus(op: L.Op) | OnCache(timed: Timed)

  function After(s: Setup, st: StreamState, step: Step): StreamState {
    match step
    case Handle(m, fault, now) => NextHandled(s, st, m, fault, now)
    case OnBus(op) => st.(bus := L.Apply(st.bus, op))
    case OnCache(timed) => st.(cache := Cache.Apply(st.cache, timed))
  }

  function AfterSteps(s: Setup, st: StreamState, steps: seq<Step>): StreamState {
    if steps == [] then st else After(s, AfterSteps(s, st, steps[..|steps| - 1]), steps[|steps| - 1])
  }

  lemma OneMoreStep(s: Setup, st: StreamState, steps: seq<Step>, step: Step)
    ensures AfterSteps(s, st, steps + [step]) == After(s, AfterSteps(s, st, steps), step)
  {
    assert (steps + [step])[..|steps|] == steps;
  }

  /** Handling the messages of one poll, one after the other. */
  function Handling(messages: seq<Message>, faults: seq<Fault>, now: real): (steps: seq<Step>)
    requires |messages| == |faults|
    ensures |steps| == |messages|
  {
    seq(|messages|, i requires 0 <= i < |messages| => Handle(messages[i], faults[i], now))
  }

  /** The steps of a poll that takes `messages`. */
  function Poll(s: Setup, max: int, messages: seq<Message>, faults: seq<Fault>, now: real): seq<Step>
    requires |messages| == |faults|
  {
    [OnBus(L.Receive(s.topic, s.subscription, max))] + Handling(messages, faults, now)
  }

  function NextHandled(s: Setup, st: StreamState, m: Message, fault: Fault, now: real): StreamState {
    Handled(s, st.(metrics := st.metrics.(seen := st.metrics.seen + 1)), m, fault, now).0
  }

  lemma PollMore(s: Setup, st: StreamState, max: int, messages: seq<Message>, faults: seq<Fault>, m: Message, fault: Fault, now: real)
    requires |messages| == |faults|
    ensures AfterSteps(s, st, Poll(s, max, messages + [m], faults + [fault], now))
            == NextHandled(s, AfterSteps(s, st, Poll(s, max, messages, faults, now)), m, fault, now)
  {
    hide Handled, L.Apply, Cache.Apply;
    OneMoreStep(s, st, Poll(s, max, messages, faults, now), Handle(m, fault, now));
    assert Poll(s, max, messages + [m], faults + [fault], now) == Poll(s, max, messages, faults, now) + [Handle(m, fault, now)];
  }

  lemma PollStarts(s: Setup, st: StreamState, max: int, now: real)
    ensures AfterSteps(s, st, Poll(s, max, [], [], now)) == st.(bus := Received(st.bus, s.topic, s.subscription, max).0)
  {
    hide Received;
    var receive := OnBus(L.Receive(s.topic, s.subscription, max));
    assert Poll(s, max, [], [], now) == [] + [receive];
    OneMoreStep(s, st, [], receive);
  }

  /** Handling a message settles it, and counts it once. */
  lemma HandledCounts(s: Setup, st: StreamState, m: Message, fault: Fault, now: real)
    ensures var (st', outcome) := Handled(s, st, m, fault, now);
            && st'.bus.inFlight == st.bus.inFlight - {m}
            && st'.metrics.seen == st.metrics.seen
            && st'.metrics.processed == st.metrics.processed + (if outcome == Processed then 1 else 0)
            && st'.metrics.duplicates == st.metrics.duplicates + (if outcome == Duplicate then 1 else 0)
            && st'.metrics.deadLettered == st.metrics.deadLettered + (if outcome == Dead then 1 else 0)
            && |st'.committed| == |st.committed| + (if outcome == Processed then 1 else 0)
            && st.committed <= st'.committed
  {
    hide Noted, Judged, PricesOf, Marked, BusState.WithDlq;
  }

  lemma NextIs(s: Setup, st: StreamState, m: Message, fault: Fault, now: real)
    ensures NextHandled(s, st, m, fault, now)
            == Handled(s, st.(metrics := st.metrics.(seen := st.metrics.seen + 1)), m, fault, now).0
  {
    hide Handled;
  }

  /** After a poll none of its messages is in flight, and each was seen once. */
  lemma {:induction false} PollSettles(s: Setup, st: StreamState, max: int, messages: seq<Message>, faults: seq<Fault>, now: real)
    requires |messages| == |faults|
    ensures var st' := AfterSteps(s, st, Poll(s, max, messages, faults, now));
            && st'.bus.inFlight == Received(st.bus, s.topic, s.subscription, max).0.inFlight - A.Members(messages)
            && st'.metrics.seen == st.metrics.seen + |messages|
  {
    hide Handled, Received, AfterSteps, Poll;
    if messages == [] {
      assert faults == [];
      PollStarts(s, st, max, now);
    } else {
      var n := |messages| - 1;
      var before := AfterSteps(s, st, Poll(s, max, messages[..n], faults[..n], now));
      PollSettles(s, st, max, messages[..n], faults[..n], now);
      PollMore(s, st, max, messages[..n], faults[..n], messages[n], faults[n], now);
      HandledCounts(s, before.(metrics := before.metrics.(seen := before.metrics.seen + 1)), messages[n], faults[n], now);
      assert messages == messages[..n] + [messages[n]] && faults == faults[..n] + [faults[n]];
      assert A.Members(messages) == A.Members(messages[..n]) + {messages[n]};
    }
  }

  // ---------------------------------------------------------------------------
  // The worker
  // ---------------------------------------------------------------------------

  class StreamService {
    const bus: InMemoryBus
    const cache: InMemoryCache
    const processor: StreamProcessor
    const topic: string
    const subscription: string
    const signalTopic: string
    const parse: string -> Option<MarketEvent>
    const render: (MarketEvent, Analysis) -> string
    var metrics: StreamCounters

    constructor (bus: InMemoryBus, cache: InMemoryCache, processor: StreamProcessor, topic: string, subscription: string,
                 signalTopic: string, parse: string -> Option<MarketEvent>, render: (MarketEvent, Analysis) -> string)
      ensures this.bus == bus && this.cache == cache && this.processor == processor
      ensures Setting() == Setup(processor.config, topic, subscription, signalTopic, parse, render)
      ensures metrics == StreamCounters(0, 0, 0, 0, 0)
    {
      this.bus, this.cache, this.processor := bus, cache, processor;
      this.topic, this.subscription, this.signalTopic := topic, subscription, signalTopic;
      this.parse, this.render := parse, render;
      metrics := StreamCounters(0, 0, 0, 0, 0);
    }

    function Setting(): Setup {
      Setup(processor.config, topic, subscription, signalTopic, parse, render)
    }

    ghost function State(): StreamState
      reads this, bus, cache, processor
    {
      StreamState(bus.State(), cache.State(), processor.committed, metrics)
    }

    /** Everything up to the commit; `fault` is the call that fails, if one does. */
    method TryProcess(e: MarketEvent, fault: Fault, now: real) returns (ok: bool)
      requires processor.Valid()
      modifies this, bus, cache, processor
      ensures processor.Valid() && (State(), ok) == Tried(Setting(), old(State()), e, fault, now)
    {
      hide Judged, Stored, Appended, Published, StreamProcessor.Valid, PricesOf, DedupeKey, SnapshotKey;
      var processed := processor.Process(e);
      if processed.Err? {
        return false;
      }
      var row := render(e, processed.value);
      if fault.AtIngest? {
        return false;
      }
      if fault != AtSnapshot(false) {
        cache.Set(SnapshotKey(e.symbol), Text(row), None, now);
      }
      if fault.AtSnapshot? {
        return false;
      }
      if fault != AtAppend(false) {
        cache.AppendHistory(e.symbol, row, MAX_CACHED_HISTORY_ROWS, now);
      }
      if fault.AtAppend? {
        return false;
      }
      if fault != AtPublish(false) {
        KeyIsNotEmpty(e);
        bus.Publish(signalTopic, row, Some(DedupeKey(e)), e.corr, "");
      }
      if fault.AtPublish? {
        return false;
      }
      metrics := metrics.(signals := metrics.signals + 1);
      if fault != AtMark(false) {
        cache.Set(DedupeKey(e), Flag(true), Some(IDEMPOTENCY_TTL), now);
      }
      if fault.AtMark? {
        return false;
      }
      processor.Commit(e, now);
      metrics := metrics.(processed := metrics.processed + 1);
      ok := true;
    }

    method DeadLetter(message: Message)
      modifies this, bus
      ensures bus.State() == DeadLettered(old(bus.State()), message)
      ensures metrics == old(metrics).(deadLettered := old(metrics).deadLettered + 1)
    {
      metrics := metrics.(deadLettered := metrics.deadLettered + 1);
      bus.DeadLetter(message);
    }

    /** Suppresses, processes or dead-letters one message; only a processed one changes any price history. */
    method HandleMessage(message: Message, fault: Fault, now: real) returns (outcome: Outcome)
      requires processor.Valid()
      modifies this, bus, cache, processor
      ensures processor.Valid() && (State(), outcome) == Handled(Setting(), old(State()), message, fault, now)
    {
      hide Tried, Marked, Completed, DeadLettered, Evicted, StreamProcessor.Valid, DedupeKey;
      var parsed := parse(message.body);
      if parsed.None? {
        DeadLetter(message);
        return Dead;
      }
      var e := parsed.value;
      A.ReadsMark(cache.State(), DedupeKey(e), now);
      var done := cache.Get(DedupeKey(e), now);
      if Truthy(done) {
        metrics := metrics.(duplicates := metrics.duplicates + 1);
        bus.Complete(message);
        return Duplicate;
      }
      var ok := TryProcess(e, fault, now);
      if ok {
        bus.Complete(message);
        outcome := Processed;
      } else {
        DeadLetter(message);
        outcome := Dead;
      }
    }

    /** Takes up to `maxMessages` and settles every one of them; message `k` of the poll meets fault `script(k)`. */
    method PollOnce(maxMessages: int, script: nat -> Fault, now: real)
      returns (total: nat, ghost messages: seq<Message>, ghost faults: seq<Fault>)
      requires processor.Valid()
      modifies this, bus, cache, processor
      ensures processor.Valid() && total == |messages| == |faults|
      ensures forall k | 0 <= k < |faults| :: faults[k] == script(k)
      ensures messages == A.Offered(old(bus.State()), topic, subscription, maxMessages)
      ensures State() == AfterSteps(Setting(), old(State()), Poll(Setting(), maxMessages, messages, faults, now))
      ensures bus.State().inFlight == old(bus.State()).inFlight - A.Members(messages)
      ensures metrics.seen == old(metrics).seen + total
    {
      hide *;
      StateIs();
      ghost var s, st := Setting(), State();
      A.ReceiveOnlyTakes(bus.State(), topic, subscription, maxMessages, signalTopic);
      ReceivesOffered(bus.State(), topic, subscription, maxMessages);
      PollStarts(s, st, maxMessages, now);
      var received := bus.Receive(topic, subscription, maxMessages);
      total, messages, faults := |received|, received, [];
      assert received[..0] == [];
      StateIs();
      for k := 0 to |received|
        invariant processor.Valid() && |faults| == k && forall j | 0 <= j < k :: faults[j] == script(j)
        invariant State() == AfterSteps(s, st, Poll(s, maxMessages, received[..k], faults, now))
      {
        ghost var before := State();
        StateIs();
        metrics := metrics.(seen := metrics.seen + 1);
        StateIs();
        var outcome := HandleMessage(received[k], script(k), now);
        NextIs(s, before, received[k], script(k), now);
        PollMore(s, st, maxMessages, received[..k], faults, received[k], script(k), now);
        faults := faults + [script(k)];
        assert received[..k + 1] == received[..k] + [received[k]];
      }
      assert received[..|received|] == received;
      PollSettles(s, st, maxMessages, received, faults, now);
      StateIs();
    }

    lemma StateIs()
      ensures Setting() == Setup(processor.config, topic, subscription, signalTopic, parse, render)
      ensures State() == StreamState(bus.State(), cache.State(), processor.committed, metrics)
    {
    }
  }

  lemma KeyIsNotEmpty(e: MarketEvent)
    ensures DedupeKey(e) != ""
  {
  }

  lemma ReceivesOffered(b: BusState, topic: string, sub: string, max: int)
    ensures Received(b, topic, sub, max).1 == A.Offered(b, topic, sub, max)
  {
  }
}
