/**
  Whole runs of the stream worker: polls at any times, redeliveries and faults, with anyone else
  using the bus and the cache in between. Only the worker writes its own markers.
 */
module StreamRuns {
  import opened Wrappers
  import opened Bus
  import opened Cache
  import opened Alerting
  import opened BoundedHistory
  import opened PriceHistory
  import opened StreamWorker
  import opened Keys
  import L = BusLedger

  // ---------------------------------------------------------------------------
  // The clock, and what others may do
  // ---------------------------------------------------------------------------

  predicate IsMarker(key: string) {
    "stream:processed:" <= key
  }

  /** Others leave the worker's markers alone, though they may read them. */
  predicate Foreign(step: Step) {
    step.OnCache? && !step.timed.op.OpGet? ==> !IsMarker(step.timed.op.key)
  }

  /** The time after a step, the bus having no clock of its own. */
  function TimeOf(step: Step, before: real): real {
    match step
    case Handle(_, _, now) => now
    case OnBus(_) => before
    case OnCache(timed) => timed.at
  }

  function Clock(steps: seq<Step>, from: real): real {
    if steps == [] then from else TimeOf(steps[|steps| - 1], Clock(steps[..|steps| - 1], from))
  }

  /** Time does not run backwards, and others leave the markers alone. */
  predicate Timely(steps: seq<Step>, from: real) {
    steps != [] ==>
      var before, last := steps[..|steps| - 1], steps[|steps| - 1];
      Timely(before, from) && Foreign(last) && TimeOf(last, Clock(before, from)) >= Clock(before, from)
  }

  // ---------------------------------------------------------------------------
  // Keys
  // ---------------------------------------------------------------------------

  lemma KeyKinds(e: MarketEvent, symbol: string)
    ensures IsMarker(DedupeKey(e)) && !IsMarker(SnapshotKey(symbol)) && !IsMarker(HistoryKey(symbol))
  {
    assert SnapshotKey(symbol)[1] == 'n' && HistoryKey(symbol)[1] == 'i';
    assert "stream:processed:"[1] == 't';
  }

  /** The cache says the same about a key. */
  predicate SameEntry(c: CacheState, c': CacheState, key: string) {
    && (key in c.store <==> key in c'.store) && (key in c.store ==> c.store[key] == c'.store[key])
    && (key in c.expiry <==> key in c'.expiry) && (key in c.expiry ==> c.expiry[key] == c'.expiry[key])
  }

  /** The marker of `e` as it is set at `now`. */
  predicate FreshMarker(c: CacheState, key: string, now: real) {
    key in c.store && c.store[key] == Flag(true) && key in c.expiry && c.expiry[key] == now + IDEMPOTENCY_TTL
  }

  lemma StoredElsewhere(c: CacheState, other: string, value: Value, ttl: Option<real>, now: real, key: string)
    requires key != other
    ensures SameEntry(c, Stored(c, other, value, ttl, now), key) && SameEntry(c, Evicted(c, other, now), key)
  {
  }

  lemma SameEntries(c0: CacheState, c1: CacheState, c2: CacheState, key: string)
    requires SameEntry(c0, c1, key) && SameEntry(c1, c2, key)
    ensures SameEntry(c0, c2, key)
  {
  }

  lemma AppendedElsewhere(c: CacheState, symbol: string, row: string, max: int, now: real, key: string)
    requires key != HistoryKey(symbol)
    ensures SameEntry(c, Appended(c, symbol, row, max, now), key)
  {
    var other := HistoryKey(symbol);
    var value := Rows(LastRows(RowsOf(Seen(c, other, now)) + [row], max));
    StoredElsewhere(c, other, value, None, now, key);
    StoredElsewhere(Evicted(c, other, now), other, value, None, now, key);
    hide Stored, Evicted, Seen, LastRows, HistoryKey;
    SameEntries(c, Evicted(c, other, now), Appended(c, symbol, row, max, now), key);
  }

  /** An attempt changes no marker but its own event's, and that one only by setting it. */
  lemma NotedMarkers(c: CacheState, e: MarketEvent, row: string, fault: Fault, now: real, key: string)
    requires IsMarker(key)
    ensures var c' := Noted(c, e, row, fault, now);
            if key == DedupeKey(e) && (fault == NoFault || fault == AtMark(true)) then FreshMarker(c', key, now)
            else SameEntry(c, c', key)
  {
    KeyKinds(e, e.symbol);
    var c1 := if fault == AtSnapshot(false) then c else Stored(c, SnapshotKey(e.symbol), Text(row), None, now);
    var c2 := if fault == AtAppend(false) then c1 else Appended(c1, e.symbol, row, MAX_CACHED_HISTORY_ROWS, now);
    StoredElsewhere(c, SnapshotKey(e.symbol), Text(row), None, now, key);
    AppendedElsewhere(c1, e.symbol, row, MAX_CACHED_HISTORY_ROWS, now, key);
    hide Appended, SnapshotKey, HistoryKey, IsMarker;
    SameEntries(c, c1, c2, key);
    if key != DedupeKey(e) {
      StoredElsewhere(c2, DedupeKey(e), Flag(true), Some(IDEMPOTENCY_TTL), now, key);
      SameEntries(c, c2, Stored(c2, DedupeKey(e), Flag(true), Some(IDEMPOTENCY_TTL), now), key);
    }
  }

  // ---------------------------------------------------------------------------
  // What a step does to one marker
  // ---------------------------------------------------------------------------

  predicate Gone(c: CacheState, key: string) {
    key !in c.store && key !in c.expiry
  }

  /** Whether the worker is handling the event with this key. */
  predicate Handles(s: Setup, step: Step, key: string) {
    step.Handle? && s.parse(step.m.body).Some? && DedupeKey(s.parse(step.m.body).value) == key
  }

  predicate Commits(s: Setup, st: StreamState, step: Step) {
    step.Handle? && Handled(s, st, step.m, step.fault, step.now).1 == Processed
  }

  /** A marker stays as it is, is evicted after its time, or is set anew by handling its event when it was not live. */
  ghost predicate MarkerStep(c: CacheState, c': CacheState, key: string, now: real, mine: bool) {
    || SameEntry(c, c', key)
    || (Expired(c, key, now) && Gone(c', key))
    || (mine && !Marked(c, key, now) && FreshMarker(c', key, now))
  }

  lemma HandledMarkers(s: Setup, st: StreamState, m: Message, fault: Fault, now: real, key: string)
    requires IsMarker(key)
    ensures var c, c' := st.cache, Handled(s, st, m, fault, now).0.cache;
            MarkerStep(c, c', key, now, Handles(s, Handle(m, fault, now), key))
    ensures Handles(s, Handle(m, fault, now), key) ==>
              (Handled(s, st, m, fault, now).1 == Duplicate <==> Marked(st.cache, key, now))
    ensures Handles(s, Handle(m, fault, now), key) && Handled(s, st, m, fault, now).1 == Processed ==>
              FreshMarker(Handled(s, st, m, fault, now).0.cache, key, now)
  {
    var parsed := s.parse(m.body);
    if parsed.Some? {
      var e := parsed.value;
      var read := st.(cache := Evicted(st.cache, DedupeKey(e), now));
      EvictedMarker(st.cache, DedupeKey(e), now, key);
      hide Noted, Evicted, Marked, DedupeKey, IsMarker;
      if !Marked(st.cache, DedupeKey(e), now) && Verdict(s, read, e).Ok? {
        NotedMarkers(read.cache, e, s.render(e, Verdict(s, read, e).value), fault, now, key);
        hide Judged, FreshMarker;
        var tried := Tried(s, read, e, fault, now).0;
        if SameEntry(st.cache, read.cache, key) && SameEntry(read.cache, tried.cache, key) {
          SameEntries(st.cache, read.cache, tried.cache, key);
        }
      }
    }
  }

  lemma EvictedMarker(c: CacheState, other: string, now: real, key: string)
    ensures SameEntry(c, Evicted(c, other, now), key) || (key == other && Expired(c, key, now) && Gone(Evicted(c, other, now), key))
  {
  }

  lemma ForeignMarkers(c: CacheState, timed: Timed, key: string)
    requires IsMarker(key) && Foreign(OnCache(timed))
    ensures MarkerStep(c, Cache.Apply(c, timed), key, timed.at, false)
  {
    EvictedMarker(c, timed.op.key, timed.at, key);
    hide IsMarker;
  }

  /** Whatever the step, a marker changes only in those ways. */
  lemma StepMarkers(s: Setup, st: StreamState, step: Step, key: string, before: real)
    requires IsMarker(key) && Foreign(step)
    ensures MarkerStep(st.cache, After(s, st, step).cache, key, TimeOf(step, before), Handles(s, step, key))
  {
    hide MarkerStep, Handled;
    match step
    case Handle(m, fault, now) =>
      HandledMarkers(s, st.(metrics := st.metrics.(seen := st.metrics.seen + 1)), m, fault, now, key);
    case OnBus(_) => SameAsItWas(st.cache, key, before, Handles(s, step, key));
    case OnCache(timed) => ForeignMarkers(st.cache, timed, key);
  }

  lemma SameAsItWas(c: CacheState, key: string, now: real, mine: bool)
    ensures MarkerStep(c, c, key, now, mine)
  {
  }

  // ---------------------------------------------------------------------------
  // When an event is committed
  // ---------------------------------------------------------------------------

  /**
    A message is processed exactly when it holds a valid event that is not marked as done, nothing
    fails, and volatility has only positive prices to divide by.
   */
  lemma ProcessedWhen(s: Setup, st: StreamState, m: Message, fault: Fault, now: real)
    ensures var (st', outcome) := Handled(s, st, m, fault, now);
            var parsed := s.parse(m.body);
            && (outcome == Processed
                <==> && parsed.Some? && !Marked(st.cache, DedupeKey(parsed.value), now) && fault == NoFault
                     && s.config.Sound()
                     && BaseIsPositive(PricesOf(st.committed, parsed.value.symbol), s.config.volatilityWindow))
            && (outcome == Processed ==> Verdict(s, st, parsed.value).Ok?)
            && st'.committed == st.committed + (if outcome == Processed then [Commitment(parsed.value, now)] else [])
  {
    var parsed := s.parse(m.body);
    if parsed.Some? {
      JudgedAccepts(PricesOf(st.committed, parsed.value.symbol), parsed.value.price, s.config);
    }
    hide Noted, Judged, PricesOf, Marked, BaseIsPositive, DedupeKey, Evicted, Published, Completed, DeadLettered;
  }

  lemma MoreCommitted(s: Setup, st: StreamState, step: Step)
    ensures var st' := After(s, st, step);
            && (Commits(s, st, step) ==>
                  && s.parse(step.m.body).Some?
                  && st'.committed == st.committed + [Commitment(s.parse(step.m.body).value, step.now)])
            && (!Commits(s, st, step) ==> st'.committed == st.committed)
  {
    if step.Handle? {
      var noticed := st.(metrics := st.metrics.(seen := st.metrics.seen + 1));
      ProcessedWhen(s, st, step.m, step.fault, step.now);
      ProcessedWhen(s, noticed, step.m, step.fault, step.now);
      hide Handled, Verdict, Marked, BaseIsPositive, DedupeKey, PricesOf;
    }
  }

  // ---------------------------------------------------------------------------
  // What a processed event leaves behind
  // ---------------------------------------------------------------------------

  lemma SnapshotKeys(a: string, b: string)
    ensures SnapshotKey(a) == SnapshotKey(b) <==> a == b
    ensures SnapshotKey(a) != HistoryKey(b)
  {
    SameSuffix("snapshot:", a, b);
    assert SnapshotKey(a)[0] == 's' && HistoryKey(b)[0] == 'h';
  }

  lemma HistoryKept(c: CacheState, key: string, value: Value, ttl: Option<real>, now: real, symbol: string)
    requires key != HistoryKey(symbol)
    ensures History(Stored(c, key, value, ttl, now), symbol, now) == History(c, symbol, now)
  {
    StoredReadsBack(c, key, value, ttl, now, HistoryKey(symbol), now);
  }

  /** The cache after an event without a fault: its snapshot, and one more row in its symbol's history and in no other. */
  lemma NotedReads(c: CacheState, e: MarketEvent, row: string, now: real, symbol: string)
    ensures var c' := Noted(c, e, row, NoFault, now);
            && Seen(c', SnapshotKey(e.symbol), now) == Text(row)
            && (symbol != e.symbol ==> Seen(c', SnapshotKey(symbol), now) == Seen(c, SnapshotKey(symbol), now))
            && History(c', symbol, now)
               == if symbol == e.symbol then LastRows(History(c, symbol, now) + [row], MAX_CACHED_HISTORY_ROWS)
                  else History(c, symbol, now)
  {
    KeyKinds(e, e.symbol);
    KeyKinds(e, symbol);
    SnapshotKeys(e.symbol, symbol);
    SnapshotKeys(e.symbol, e.symbol);
    SnapshotKeys(symbol, e.symbol);
    var c1 := Stored(c, SnapshotKey(e.symbol), Text(row), None, now);
    var c2 := Appended(c1, e.symbol, row, MAX_CACHED_HISTORY_ROWS, now);
    HistoryKept(c, SnapshotKey(e.symbol), Text(row), None, now, symbol);
    AppendedHistory(c1, e.symbol, row, MAX_CACHED_HISTORY_ROWS, now);
    if symbol != e.symbol {
      HistoriesApart(c1, e.symbol, row, MAX_CACHED_HISTORY_ROWS, now, symbol);
    }
    HistoryKept(c2, DedupeKey(e), Flag(true), Some(IDEMPOTENCY_TTL), now, symbol);
    AppendedElsewhere(c1, e.symbol, row, MAX_CACHED_HISTORY_ROWS, now, SnapshotKey(e.symbol));
    AppendedElsewhere(c1, e.symbol, row, MAX_CACHED_HISTORY_ROWS, now, SnapshotKey(symbol));
    hide Appended, SnapshotKey, HistoryKey, IsMarker, DedupeKey, LastRows, History;
  }

  lemma SignalArrives(b: BusState, topic: string, body: string, id: string, corr: Option<string>, sub: string)
    requires sub in b.QueuesOf(topic) && id !in b.Seen(topic)
    ensures Published(b, topic, body, id, corr).Queue(topic, sub)
            == b.Queue(topic, sub) + [Message(topic, sub, body, id, corr, b.Next(topic))]
  {
    assert Published(b, topic, body, id, corr).QueuesOf(topic) == WithCopies(b.QueuesOf(topic), topic, body, id, corr, b.Next(topic));
  }

  /**
    What a processed event leaves behind: its indicators over the kept prices and its own, rendered, at
    the end of every subscription to the signals that had not seen its key, as its symbol's snapshot,
    and as the newest row of its symbol's history; and its price.
   */
  lemma ProcessedLeaves(s: Setup, st: StreamState, m: Message, fault: Fault, now: real, sub: string, symbol: string)
    requires Handled(s, st, m, fault, now).1 == Processed
    ensures var e, st' := s.parse(m.body).value, Handled(s, st, m, fault, now).0;
            && Verdict(s, st, e).Ok?
            && var row := s.render(e, Verdict(s, st, e).value);
            && (sub in st.bus.QueuesOf(s.signalTopic) && DedupeKey(e) !in st.bus.Seen(s.signalTopic) ==>
                  st'.bus.Queue(s.signalTopic, sub)
                  == st.bus.Queue(s.signalTopic, sub)
                     + [Message(s.signalTopic, sub, row, DedupeKey(e), e.corr, st.bus.Next(s.signalTopic))])
            && Seen(st'.cache, SnapshotKey(e.symbol), now) == Text(row)
            && (symbol != e.symbol ==> Seen(st'.cache, SnapshotKey(symbol), now) == Seen(st.cache, SnapshotKey(symbol), now))
            && History(st'.cache, symbol, now)
               == (if symbol == e.symbol then LastRows(History(st.cache, symbol, now) + [row], MAX_CACHED_HISTORY_ROWS)
                   else History(st.cache, symbol, now))
            && PricesOf(st'.committed, symbol)
               == PricesOf(st.committed, symbol) + (if symbol == e.symbol then [e.price] else [])
  {
    ProcessedWhen(s, st, m, fault, now);
    var e := s.parse(m.body).value;
    var row, read := s.render(e, Verdict(s, st, e).value), Evicted(st.cache, DedupeKey(e), now);
    NotedReads(read, e, row, now, symbol);
    EvictionIsInvisible(st.cache, DedupeKey(e), now, HistoryKey(symbol), now);
    EvictionIsInvisible(st.cache, DedupeKey(e), now, SnapshotKey(symbol), now);
    if sub in st.bus.QueuesOf(s.signalTopic) && DedupeKey(e) !in st.bus.Seen(s.signalTopic) {
      SignalArrives(st.bus, s.signalTopic, row, DedupeKey(e), e.corr, sub);
    }
    PricesMore(st.committed, Commitment(e, now), symbol);
    CompletedQueue(Published(st.bus, s.signalTopic, row, DedupeKey(e), e.corr), m, s.signalTopic, sub);
    hide Noted, Judged, PricesOf, Marked, DedupeKey, Evicted, Published, Completed, SnapshotKey, HistoryKey, LastRows, BaseIsPositive,
         BusState.Queue, BusState.QueuesOf, BusState.Seen, BusState.Next;
    assert PricesOf(st.committed, symbol) + [] == PricesOf(st.committed, symbol);
  }

  lemma NotedStays(c: CacheState, e: MarketEvent, row: string, now: real)
    ensures var c' := Noted(c, e, row, NoFault, now);
            SnapshotKey(e.symbol) !in c'.expiry && HistoryKey(e.symbol) !in c'.expiry
  {
    KeyKinds(e, e.symbol);
    SnapshotKeys(e.symbol, e.symbol);
    hide SnapshotKey, HistoryKey, IsMarker, DedupeKey, LastRows;
  }

  /** The snapshot and the history of a symbol do not expire. */
  lemma ProcessedStays(s: Setup, st: StreamState, m: Message, fault: Fault, now: real, later: real)
    requires Handled(s, st, m, fault, now).1 == Processed
    ensures var e, cache := s.parse(m.body).value, Handled(s, st, m, fault, now).0.cache;
            && Seen(cache, SnapshotKey(e.symbol), later) == Seen(cache, SnapshotKey(e.symbol), now)
            && History(cache, e.symbol, later) == History(cache, e.symbol, now)
  {
    ProcessedWhen(s, st, m, fault, now);
    var e := s.parse(m.body).value;
    NotedStays(Evicted(st.cache, DedupeKey(e), now), e, s.render(e, Verdict(s, st, e).value), now);
    hide Noted, Judged, PricesOf, Marked, DedupeKey, Evicted, Published, Completed, SnapshotKey, HistoryKey, BaseIsPositive;
  }

  lemma CompletedQueue(b: BusState, m: Message, topic: string, sub: string)
    ensures Completed(b, m).Queue(topic, sub) == b.Queue(topic, sub)
  {
  }

  // ---------------------------------------------------------------------------
  // Twice only after the marker's time
  // ---------------------------------------------------------------------------

  predicate Shields(c: CacheState, key: string, until: real) {
    key in c.store && c.store[key] == Flag(true) && key in c.expiry && c.expiry[key] >= until
  }

  predicate Guarded(c: CacheState, key: string, until: real, now: real) {
    now > until || Shields(c, key, until)
  }

  lemma GuardedStep(c: CacheState, c': CacheState, key: string, until: real, now: real, later: real, mine: bool)
    requires MarkerStep(c, c', key, later, mine) && Guarded(c, key, until, now) && later >= now && until <= now + IDEMPOTENCY_TTL
    ensures Guarded(c', key, until, later)
    ensures mine && !Marked(c, key, later) ==> later > until
  {
  }

  /** Commitment `i` is in the past, and its marker is there for as long as it should be. */
  predicate KeptMark(st: StreamState, i: int, now: real)
    requires 0 <= i < |st.committed|
  {
    var c := st.committed[i];
    c.at <= now && Guarded(st.cache, DedupeKey(c.event), c.at + IDEMPOTENCY_TTL, now)
  }

  /** Two commitments of one event are further apart than a marker lives. */
  predicate FarApart(committed: seq<Commitment>) {
    forall i, j | 0 <= i < j < |committed| && DedupeKey(committed[i].event) == DedupeKey(committed[j].event) ::
      committed[j].at > committed[i].at + IDEMPOTENCY_TTL
  }

  ghost predicate Spaced(st: StreamState, now: real) {
    FarApart(st.committed) && forall i | 0 <= i < |st.committed| :: KeptMark(st, i, now)
  }

  lemma KeptMarkStep(s: Setup, st: StreamState, step: Step, i: int, now: real)
    requires 0 <= i < |st.committed| && KeptMark(st, i, now) && Foreign(step) && TimeOf(step, now) >= now
    ensures var c, st', later := st.committed[i], After(s, st, step), TimeOf(step, now);
            && c.at <= later && Guarded(st'.cache, DedupeKey(c.event), c.at + IDEMPOTENCY_TTL, later)
            && (Commits(s, st, step) && Handles(s, step, DedupeKey(c.event)) ==> later > c.at + IDEMPOTENCY_TTL)
  {
    var c, later := st.committed[i], TimeOf(step, now);
    KeyKinds(c.event, "");
    StepMarkers(s, st, step, DedupeKey(c.event), now);
    GuardedStep(st.cache, After(s, st, step).cache, DedupeKey(c.event), c.at + IDEMPOTENCY_TTL, now, later,
                Handles(s, step, DedupeKey(c.event)));
    if Commits(s, st, step) {
      ProcessedWhen(s, st, step.m, step.fault, step.now);
    }
  }

  lemma NewMark(s: Setup, st: StreamState, step: Step, now: real)
    requires Commits(s, st, step)
    ensures var e := s.parse(step.m.body).value;
            Guarded(After(s, st, step).cache, DedupeKey(e), step.now + IDEMPOTENCY_TTL, step.now)
  {
    var noticed := st.(metrics := st.metrics.(seen := st.metrics.seen + 1));
    ProcessedWhen(s, st, step.m, step.fault, step.now);
    ProcessedWhen(s, noticed, step.m, step.fault, step.now);
    var e := s.parse(step.m.body).value;
    KeyKinds(e, "");
    HandledMarkers(s, noticed, step.m, step.fault, step.now, DedupeKey(e));
  }

  lemma SpacedStep(s: Setup, st: StreamState, step: Step, now: real)
    requires Spaced(st, now) && Foreign(step) && TimeOf(step, now) >= now
    ensures Spaced(After(s, st, step), TimeOf(step, now))
  {
    var st', later, n := After(s, st, step), TimeOf(step, now), |st.committed|;
    MoreCommitted(s, st, step);
    if Commits(s, st, step) {
      NewMark(s, st, step, now);
    }
    hide After, Commits, Guarded, DedupeKey, Foreign, Handles;
    forall i | 0 <= i < |st'.committed|
      ensures KeptMark(st', i, later)
      ensures i < n && |st'.committed| > n && DedupeKey(st.committed[i].event) == DedupeKey(st'.committed[n].event) ==>
                later > st.committed[i].at + IDEMPOTENCY_TTL
    {
      if i < n {
        assert KeptMark(st, i, now);
        KeptMarkStep(s, st, step, i, now);
        if |st'.committed| > n && DedupeKey(st.committed[i].event) == DedupeKey(st'.committed[n].event) {
          assert Handles(s, step, DedupeKey(st.committed[i].event)) by {
            IsHandled(s, st, step);
          }
        }
      }
    }
  }

  lemma IsHandled(s: Setup, st: StreamState, step: Step)
    requires Commits(s, st, step) && s.parse(step.m.body).Some?
    ensures Handles(s, step, DedupeKey(s.parse(step.m.body).value))
  {
  }

  /** In every run, two commitments of one event are further apart than a marker lives. */
  lemma {:induction false} RunIsSpaced(s: Setup, st: StreamState, steps: seq<Step>, from: real)
    requires Spaced(st, from) && Timely(steps, from)
    ensures Spaced(AfterSteps(s, st, steps), Clock(steps, from))
  {
    if steps != [] {
      hide Spaced, After, Foreign, TimeOf;
      RunIsSpaced(s, st, steps[..|steps| - 1], from);
      SpacedStep(s, AfterSteps(s, st, steps[..|steps| - 1]), steps[|steps| - 1], Clock(steps[..|steps| - 1], from));
    }
  }

  /** The marker set at `at` is as it was set, or its time is over and it was evicted. */
  predicate Tracked(c: CacheState, key: string, at: real, now: real) {
    FreshMarker(c, key, at) || (Gone(c, key) && now > at + IDEMPOTENCY_TTL)
  }

  lemma TrackedStep(c: CacheState, c': CacheState, key: string, at: real, now: real, later: real)
    requires Tracked(c, key, at, now) && MarkerStep(c, c', key, later, false) && later >= now
    ensures Tracked(c', key, at, later)
  {
  }

  lemma {:induction false} TrackedRun(s: Setup, st: StreamState, steps: seq<Step>, key: string, at: real, from: real)
    requires IsMarker(key) && Tracked(st.cache, key, at, from) && Timely(steps, from)
    requires forall i | 0 <= i < |steps| :: !Handles(s, steps[i], key)
    ensures Tracked(AfterSteps(s, st, steps).cache, key, at, Clock(steps, from))
  {
    if steps != [] {
      hide Tracked, After, Foreign, TimeOf, Handles, IsMarker;
      var n := |steps| - 1;
      TrackedRun(s, st, steps[..n], key, at, from);
      var before, now := AfterSteps(s, st, steps[..n]), Clock(steps[..n], from);
      StepMarkers(s, before, steps[n], key, now);
      TrackedStep(before.cache, After(s, before, steps[n]).cache, key, at, now, TimeOf(steps[n], now));
    }
  }

  /**
    An event committed at one time and delivered again later, whatever happened in between: it is
    suppressed exactly while its marker lives, and committed a second time exactly when the marker's
    time is over and neither a fault nor its symbol's prices stand in the way.
   */
  lemma Redelivered(s: Setup, st: StreamState, first: Step, between: seq<Step>, again: Step)
    requires Commits(s, st, first) && Timely(between, first.now)
    requires again.Handle? && again.now >= Clock(between, first.now)
    requires var key := DedupeKey(s.parse(first.m.body).value);
             Handles(s, again, key) && forall i | 0 <= i < |between| :: !Handles(s, between[i], key)
    ensures var before := AfterSteps(s, After(s, st, first), between);
            var outcome := Handled(s, before, again.m, again.fault, again.now).1;
            var prices := PricesOf(before.committed, s.parse(again.m.body).value.symbol);
            && (outcome == Duplicate <==> again.now <= first.now + IDEMPOTENCY_TTL)
            && (outcome == Processed
                <==> again.now > first.now + IDEMPOTENCY_TTL && again.fault == NoFault
                     && s.config.Sound() && BaseIsPositive(prices, s.config.volatilityWindow))
  {
    var key := DedupeKey(s.parse(first.m.body).value);
    var start := After(s, st, first);
    var before := AfterSteps(s, start, between);
    SetAtFirst(s, st, first);
    TrackedRun(s, start, between, key, first.now, first.now);
    HandledMarkers(s, before, again.m, again.fault, again.now, key);
    ProcessedWhen(s, before, again.m, again.fault, again.now);
    MarkedWhileTracked(before.cache, key, first.now, Clock(between, first.now), again.now);
    hide Handled, Marked, BaseIsPositive, PricesOf, After, AfterSteps, Timely, Clock;
  }

  lemma SetAtFirst(s: Setup, st: StreamState, first: Step)
    requires Commits(s, st, first)
    ensures s.parse(first.m.body).Some?
    ensures var key := DedupeKey(s.parse(first.m.body).value);
            IsMarker(key) && Tracked(After(s, st, first).cache, key, first.now, first.now)
  {
    var noticed := st.(metrics := st.metrics.(seen := st.metrics.seen + 1));
    ProcessedWhen(s, st, first.m, first.fault, first.now);
    ProcessedWhen(s, noticed, first.m, first.fault, first.now);
    var e := s.parse(first.m.body).value;
    KeyKinds(e, "");
    HandledMarkers(s, noticed, first.m, first.fault, first.now, DedupeKey(e));
  }

  lemma MarkedWhileTracked(c: CacheState, key: string, at: real, now: real, later: real)
    requires Tracked(c, key, at, now) && later >= now
    ensures Marked(c, key, later) <==> later <= at + IDEMPOTENCY_TTL
  {
  }

  // ---------------------------------------------------------------------------
  // Suppressed only as a duplicate
  // ---------------------------------------------------------------------------

  predicate SameTick(a: MarketEvent, b: MarketEvent) {
    a.symbol == b.symbol && a.ts == b.ts && a.source == b.source
  }

  /** The key tells symbol, timestamp and source apart, as long as neither symbols nor sources hold a colon. */
  lemma KeyTells(a: MarketEvent, b: MarketEvent)
    requires ':' !in a.symbol && ':' !in b.symbol && ':' !in a.source && ':' !in b.source
    ensures DedupeKey(a) == DedupeKey(b) <==> SameTick(a, b)
  {
    SameSuffix("stream:processed:", MarketEventKey(a), MarketEventKey(b));
    ThreeParts(a.symbol, a.ts, a.source, b.symbol, b.ts, b.source);
  }

  /** No message so far had an event with this key. */
  predicate NeverHandled(s: Setup, steps: seq<Step>, key: string) {
    forall i | 0 <= i < |steps| :: !Handles(s, steps[i], key)
  }

  lemma NoMarkerOfItsOwn(c: CacheState, c': CacheState, key: string, now: real)
    requires MarkerStep(c, c', key, now, false) && key !in c.store
    ensures key !in c'.store
  {
  }

  lemma {:induction false} NoMarkerYet(s: Setup, st: StreamState, steps: seq<Step>, key: string, from: real)
    requires IsMarker(key) && key !in st.cache.store && Timely(steps, from) && NeverHandled(s, steps, key)
    ensures key !in AfterSteps(s, st, steps).cache.store
  {
    if steps != [] {
      var n := |steps| - 1;
      var before := AfterSteps(s, st, steps[..n]);
      NoMarkerYet(s, st, steps[..n], key, from);
      StepMarkers(s, before, steps[n], key, Clock(steps[..n], from));
      hide MarkerStep, After, Handles, IsMarker, Timely, Clock, TimeOf;
      NoMarkerOfItsOwn(before.cache, After(s, before, steps[n]).cache, key, TimeOf(steps[n], Clock(steps[..n], from)));
    }
  }

  /** Step number `i` handled an event with the symbol, timestamp and source of `e`. */
  predicate HandledBefore(s: Setup, steps: seq<Step>, i: int, e: MarketEvent) {
    0 <= i < |steps| && steps[i].Handle? && s.parse(steps[i].m.body).Some? && SameTick(s.parse(steps[i].m.body).value, e)
  }

  /** The events a worker is sent have neither a colon in their symbol nor in their source. */
  ghost predicate NoColons(s: Setup) {
    forall body :: s.parse(body).Some? ==> ':' !in s.parse(body).value.symbol && ':' !in s.parse(body).value.source
  }

  /**
    Over every run on a cache without markers, a message is suppressed only if an earlier one of the
    run had the same symbol, timestamp and source.
   */
  lemma SuppressedOnlyIfSeen(s: Setup, st: StreamState, steps: seq<Step>, m: Message, fault: Fault, now: real, from: real)
    requires NoColons(s) && Timely(steps, from) && forall k | IsMarker(k) :: k !in st.cache.store
    requires Handled(s, AfterSteps(s, st, steps), m, fault, now).1 == Duplicate
    ensures s.parse(m.body).Some? && exists i :: HandledBefore(s, steps, i, s.parse(m.body).value)
  {
    var before := AfterSteps(s, st, steps);
    hide Tried, Published, Evicted, AfterSteps, Timely, DedupeKey, IsMarker, SameTick;
    var e := s.parse(m.body).value;
    var key := DedupeKey(e);
    KeyKinds(e, "");
    UnmarkedIfAbsent(before.cache, key, now);
    if NeverHandled(s, steps, key) {
      NoMarkerYet(s, st, steps, key, from);
    }
    assert !NeverHandled(s, steps, key);
    var i :| 0 <= i < |steps| && Handles(s, steps[i], key);
    KeyTells(s.parse(steps[i].m.body).value, e);
    assert HandledBefore(s, steps, i, e);
  }

  lemma UnmarkedIfAbsent(c: CacheState, key: string, now: real)
    ensures key !in c.store ==> !Marked(c, key, now)
  {
  }

  // ---------------------------------------------------------------------------
  // One signal for each event
  // ---------------------------------------------------------------------------

  /** What a step does to the bus. */
  function StepOps(s: Setup, st: StreamState, step: Step): seq<L.Op> {
    match step
    case OnCache(_) => []
    case OnBus(op) => [op]
    case Handle(m, fault, now) =>
      var parsed := s.parse(m.body);
      if parsed.None? then [L.DeadLetter(m)]
      else if Marked(st.cache, DedupeKey(parsed.value), now) then [L.Complete(m)]
      else
        var verdict := Verdict(s, st, parsed.value);
        if verdict.Err? then [L.DeadLetter(m)]
        else
          (if Sent(fault) then
             [L.Publish(s.signalTopic, s.render(parsed.value, verdict.value), DedupeKey(parsed.value), parsed.value.corr)]
           else [])
          + [if fault == NoFault then L.Complete(m) else L.DeadLetter(m)]
  }

  function AllOps(s: Setup, st: StreamState, steps: seq<Step>): seq<L.Op> {
    if steps == [] then []
    else
      var before := steps[..|steps| - 1];
      AllOps(s, st, before) + StepOps(s, AfterSteps(s, st, before), steps[|steps| - 1])
  }

  lemma FewOps(b: BusState, x: L.Op, y: L.Op)
    ensures L.Run(b, []) == b && L.Run(b, [x]) == L.Apply(b, x) && L.Run(b, [x] + [y]) == L.Apply(L.Apply(b, x), y)
  {
    hide L.Apply;
    var b' := L.Apply(b, x);
    assert [x][1..] == [] && [y][1..] == [];
    assert ([x] + [y])[1..] == [y] && L.Run(b', [y]) == L.Run(L.Apply(b', y), []);
  }

  lemma StepIsOps(s: Setup, st: StreamState, step: Step)
    ensures L.Run(st.bus, StepOps(s, st, step)) == After(s, st, step).bus
  {
    hide Noted, Judged, PricesOf, Marked, DedupeKey, Evicted, Published, Completed, DeadLettered, L.Run;
    var ops := StepOps(s, st, step);
    if ops == [] {
      FewOps(st.bus, L.Drain("", ""), L.Drain("", ""));
    } else if |ops| == 1 {
      assert ops == [ops[0]];
      FewOps(st.bus, ops[0], ops[0]);
    } else {
      assert ops == [ops[0]] + [ops[1]];
      FewOps(st.bus, ops[0], ops[1]);
    }
  }

  /** Seen from the bus, a run of the worker is a run of bus operations. */
  lemma {:induction false} RunIsOps(s: Setup, st: StreamState, steps: seq<Step>)
    ensures L.Run(st.bus, AllOps(s, st, steps)) == AfterSteps(s, st, steps).bus
  {
    hide L.Run, StepOps, After;
    if steps == [] {
      FewOps(st.bus, L.Drain("", ""), L.Drain("", ""));
    } else {
      var n := |steps| - 1;
      var before := AfterSteps(s, st, steps[..n]);
      RunIsOps(s, st, steps[..n]);
      StepIsOps(s, before, steps[n]);
      L.RunConcat(st.bus, L.NEW_LEDGER, AllOps(s, st, steps[..n]), StepOps(s, before, steps[n]), "", "");
    }
  }

  lemma SeenGrows(b: BusState, op: L.Op, t: string)
    ensures b.Seen(t) <= L.Apply(b, op).Seen(t)
    ensures op.Publish? && op.topic == t ==> op.mid in L.Apply(b, op).Seen(t)
  {
  }

  lemma OpsGrow(b: BusState, ops: seq<L.Op>, t: string)
    requires |ops| <= 2
    ensures b.Seen(t) <= L.Run(b, ops).Seen(t)
    ensures |ops| == 2 && ops[0].Publish? && ops[0].topic == t ==> ops[0].mid in L.Run(b, ops).Seen(t)
  {
    hide L.Apply, BusState.Seen, L.Run;
    if ops == [] {
      FewOps(b, L.Drain("", ""), L.Drain("", ""));
    } else if |ops| == 1 {
      assert ops == [ops[0]];
      FewOps(b, ops[0], ops[0]);
      SeenGrows(b, ops[0], t);
    } else {
      assert ops == [ops[0]] + [ops[1]];
      FewOps(b, ops[0], ops[1]);
      SeenGrows(b, ops[0], t);
      SeenGrows(L.Apply(b, ops[0]), ops[1], t);
    }
  }

  /** The signals of the events committed from number `from` on have gone out. */
  predicate SignalsOut(s: Setup, st: StreamState, from: nat) {
    forall i | from <= i < |st.committed| :: DedupeKey(st.committed[i].event) in st.bus.Seen(s.signalTopic)
  }

  lemma SignalsOutStep(s: Setup, st: StreamState, step: Step, from: nat)
    requires SignalsOut(s, st, from)
    ensures SignalsOut(s, After(s, st, step), from)
  {
    var ops := StepOps(s, st, step);
    StepIsOps(s, st, step);
    MoreCommitted(s, st, step);
    OpsGrow(st.bus, ops, s.signalTopic);
    if Commits(s, st, step) {
      ProcessedWhen(s, st, step.m, step.fault, step.now);
      assert |ops| == 2 && ops[0].mid == DedupeKey(s.parse(step.m.body).value);
    }
    hide StepOps, After, Commits, DedupeKey, BusState.Seen, L.Run;
  }

  lemma {:induction false} RunSignalsOut(s: Setup, st: StreamState, steps: seq<Step>, from: nat)
    requires SignalsOut(s, st, from)
    ensures SignalsOut(s, AfterSteps(s, st, steps), from)
  {
    if steps != [] {
      hide SignalsOut, After;
      RunSignalsOut(s, st, steps[..|steps| - 1], from);
      SignalsOutStep(s, AfterSteps(s, st, steps[..|steps| - 1]), steps[|steps| - 1], from);
    }
  }

  /** One message, and only one, has this id. */
  predicate ExactlyOnce(ms: seq<Message>, id: string) {
    exists i | 0 <= i < |ms| :: ms[i].messageId == id && forall j | 0 <= j < |ms| && j != i :: ms[j].messageId != id
  }

  /**
    Over any run from any bus, a subscription to the signals gets each event's signal at most once;
    one that is there from the start gets the signal of every event committed exactly once, even if
    the event is committed again after its marker's time.
   */
  lemma OneSignalEach(s: Setup, st: StreamState, steps: seq<Step>, sub: string, i: nat)
    requires L.Routed(st.bus)
    ensures var got := L.Record(st.bus, L.NEW_LEDGER, AllOps(s, st, steps), s.signalTopic, sub).accepted;
            var committed := AfterSteps(s, st, steps).committed;
            && L.DistinctIds(got)
            && (sub in st.bus.QueuesOf(s.signalTopic) && |st.committed| <= i < |committed|
                && DedupeKey(committed[i].event) !in st.bus.Seen(s.signalTopic) ==>
                  ExactlyOnce(got, DedupeKey(committed[i].event)))
  {
    var t, known := s.signalTopic, st.bus.Seen(s.signalTopic);
    var c := L.View(st.bus, t, sub);
    var ops, end := AllOps(s, st, steps), AfterSteps(s, st, steps);
    var got := L.Record(st.bus, L.NEW_LEDGER, ops, t, sub).accepted;
    StartsInOrder(c, known, t, sub);
    L.RunDelivers(st.bus, L.NEW_LEDGER, ops, known, t, sub);
    RunIsOps(s, st, steps);
    RunSignalsOut(s, st, steps, |st.committed|);
    hide L.Run, L.Record, AllOps, AfterSteps, DedupeKey, L.AcceptedAt;
    if sub in st.bus.QueuesOf(t) && |st.committed| <= i < |end.committed| && DedupeKey(end.committed[i].event) !in known {
      var id := DedupeKey(end.committed[i].event);
      assert id in L.View(end.bus, t, sub).seen;
      assert L.Delivered(c, [], known);
      OnceDelivered(L.View(end.bus, t, sub), got, known, id);
    }
  }

  lemma StartsInOrder(c: L.Channel, known: set<string>, t: string, s: string)
    ensures L.InOrder(c, [], t, s)
    ensures c.subscribed && c.seen <= known ==> L.Delivered(c, [], known)
  {
  }

  lemma OnceDelivered(c: L.Channel, got: seq<Message>, known: set<string>, id: string)
    requires L.Delivered(c, got, known) && L.DistinctIds(got) && id in c.seen && id !in known
    ensures ExactlyOnce(got, id)
  {
    var i :| 0 <= i < |got| && got[i].messageId == id;
    assert forall j | 0 <= j < |got| && j != i :: got[j].messageId != id;
  }

  // ---------------------------------------------------------------------------
  // Counters
  // ---------------------------------------------------------------------------

  lemma StepCounts(s: Setup, st: StreamState, step: Step)
    ensures var m, m' := st.metrics, After(s, st, step).metrics;
            && m'.seen - m.seen == m'.processed - m.processed + m'.duplicates - m.duplicates + m'.deadLettered - m.deadLettered
            && m'.processed - m.processed == |After(s, st, step).committed| - |st.committed|
            && m'.processed - m.processed <= m'.signals - m.signals <= m'.seen - m.seen
  {
    hide Noted, Judged, PricesOf, Marked, DedupeKey, Evicted, Published, Completed, DeadLettered;
  }

  /** Every message seen was processed, suppressed or dead-lettered; as many prices were added as events processed. */
  lemma {:induction false} RunCounts(s: Setup, st: StreamState, steps: seq<Step>)
    ensures var m, m' := st.metrics, AfterSteps(s, st, steps).metrics;
            && m'.seen - m.seen == m'.processed - m.processed + m'.duplicates - m.duplicates + m'.deadLettered - m.deadLettered
            && m'.processed - m.processed == |AfterSteps(s, st, steps).committed| - |st.committed|
            && m'.processed - m.processed <= m'.signals - m.signals <= m'.seen - m.seen
  {
    if steps != [] {
      hide After;
      RunCounts(s, st, steps[..|steps| - 1]);
      StepCounts(s, AfterSteps(s, st, steps[..|steps| - 1]), steps[|steps| - 1]);
    }
  }

  // ---------------------------------------------------------------------------
  // Prices
  // ---------------------------------------------------------------------------

  /** Every committed price was accepted after the ones before it. */
  ghost predicate AllAccepted(s: Setup, st: StreamState) {
    forall symbol :: Accepted(PricesOf(st.committed, symbol), s.config)
  }

  lemma AcceptedStep(s: Setup, st: StreamState, step: Step, symbol: string)
    requires Accepted(PricesOf(st.committed, symbol), s.config)
    ensures Accepted(PricesOf(After(s, st, step).committed, symbol), s.config)
    ensures PricesOf(st.committed, symbol) <= PricesOf(After(s, st, step).committed, symbol)
  {
    MoreCommitted(s, st, step);
    if Commits(s, st, step) {
      ProcessedWhen(s, st, step.m, step.fault, step.now);
      var c := Commitment(s.parse(step.m.body).value, step.now);
      hide Commits, After, PricesOf, Judged, Accepted;
      PricesMore(st.committed, c, symbol);
      AcceptedMore(PricesOf(st.committed, symbol), c.event.price, s.config);
    }
  }

  lemma {:induction false} RunAccepted(s: Setup, st: StreamState, steps: seq<Step>, symbol: string)
    requires Accepted(PricesOf(st.committed, symbol), s.config)
    ensures Accepted(PricesOf(AfterSteps(s, st, steps).committed, symbol), s.config)
    ensures PricesOf(st.committed, symbol) <= PricesOf(AfterSteps(s, st, steps).committed, symbol)
  {
    if steps != [] {
      hide Accepted, PricesOf, After;
      RunAccepted(s, st, steps[..|steps| - 1], symbol);
      AcceptedStep(s, AfterSteps(s, st, steps[..|steps| - 1]), steps[|steps| - 1], symbol);
    }
  }

  /**
    Once a price of zero or less was committed for a symbol, no run whatsoever adds more prices to it
    than fit below one volatility window: its later events all end as dead letters.
   */
  lemma SymbolWedged(s: Setup, st: StreamState, steps: seq<Step>, symbol: string)
    requires Accepted(PricesOf(st.committed, symbol), s.config) && !AllPositive(PricesOf(st.committed, symbol))
    ensures var before, after := PricesOf(st.committed, symbol), PricesOf(AfterSteps(s, st, steps).committed, symbol);
            after == before || |after| < s.config.volatilityWindow
  {
    hide Accepted, PricesOf, AfterSteps;
    RunAccepted(s, st, steps, symbol);
    var before, after := PricesOf(st.committed, symbol), PricesOf(AfterSteps(s, st, steps).committed, symbol);
    var more := after[|before|..];
    assert after == before + more;
    if more != [] {
      WedgedAfter(before, more, s.config);
    }
  }

  // ---------------------------------------------------------------------------
  // From a fresh worker
  // ---------------------------------------------------------------------------

  lemma {:induction false} StepsConcat(s: Setup, st: StreamState, xs: seq<Step>, ys: seq<Step>, from: real)
    ensures AfterSteps(s, st, xs + ys) == AfterSteps(s, AfterSteps(s, st, xs), ys)
    ensures Clock(xs + ys, from) == Clock(ys, Clock(xs, from))
    ensures Timely(xs + ys, from) <==> Timely(xs, from) && Timely(ys, Clock(xs, from))
  {
    hide After, Foreign, TimeOf;
    if ys == [] {
      assert xs + ys == xs;
    } else {
      assert (xs + ys)[..|xs + ys| - 1] == xs + ys[..|ys| - 1];
      StepsConcat(s, st, xs, ys[..|ys| - 1], from);
    }
  }

  lemma {:induction false} HandlingIsTimely(messages: seq<Message>, faults: seq<Fault>, now: real, from: real)
    requires |messages| == |faults| && from <= now
    ensures Timely(Handling(messages, faults, now), from)
    ensures from <= Clock(Handling(messages, faults, now), from) <= now
  {
    if messages != [] {
      var n := |messages| - 1;
      HandlingIsTimely(messages[..n], faults[..n], now, from);
      assert Handling(messages, faults, now)[..n] == Handling(messages[..n], faults[..n], now);
    }
  }

  lemma ReceiveIsTimely(receive: Step, from: real)
    requires receive.OnBus?
    ensures Timely([receive], from) && Clock([receive], from) == from
  {
    var none: seq<Step> := [receive][..0];
    assert none == [] && Timely(none, from) && Clock(none, from) == from;
  }

  /** One poll after another, at times that do not run backwards, is a run. */
  lemma PollFollows(s: Setup, st: StreamState, steps: seq<Step>, from: real, max: int, messages: seq<Message>, faults: seq<Fault>, now: real)
    requires |messages| == |faults| && Timely(steps, from) && Clock(steps, from) <= now
    ensures var poll := Poll(s, max, messages, faults, now);
            && AfterSteps(s, AfterSteps(s, st, steps), poll) == AfterSteps(s, st, steps + poll)
            && Timely(steps + poll, from) && Clock(steps + poll, from) <= now
  {
    var receive := [OnBus(L.Receive(s.topic, s.subscription, max))];
    var handling, clock := Handling(messages, faults, now), Clock(steps, from);
    ReceiveIsTimely(receive[0], clock);
    HandlingIsTimely(messages, faults, now, clock);
    hide Timely, Clock, AfterSteps, Handling;
    StepsConcat(s, st, receive, handling, clock);
    StepsConcat(s, st, steps, receive + handling, from);
  }

  /**
    What holds after every run of a worker that starts with no prices, whatever is on the bus and in
    the cache: no event is committed twice within the life of a marker, every committed event's signal
    is out, every price was accepted after the ones before it, and the counters add up.
   */
  lemma RunGuarantees(s: Setup, b: BusState, c: CacheState, steps: seq<Step>, from: real)
    requires Timely(steps, from)
    ensures var st := AfterSteps(s, StreamState(b, c, [], StreamCounters(0, 0, 0, 0, 0)), steps);
            && FarApart(st.committed) && SignalsOut(s, st, 0) && AllAccepted(s, st)
            && st.metrics.seen == st.metrics.processed + st.metrics.duplicates + st.metrics.deadLettered
            && st.metrics.processed == |st.committed|
  {
    var start := StreamState(b, c, [], StreamCounters(0, 0, 0, 0, 0));
    RunIsSpaced(s, start, steps, from);
    RunSignalsOut(s, start, steps, 0);
    RunCounts(s, start, steps);
    hide AfterSteps, Timely, Clock, KeptMark, DedupeKey, Judged;
    forall symbol
      ensures Accepted(PricesOf(AfterSteps(s, start, steps).committed, symbol), s.config)
    {
      RunAccepted(s, start, steps, symbol);
    }
  }
}
