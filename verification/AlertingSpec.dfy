/**
  What becomes of an event at the alerting worker, decided by the markers and the lock it finds, by
  the circuit breaker and by the faults its attempts meet.
 */
module AlertingSpec {
  import opened Wrappers
  import opened Bus
  import opened Cache
  import opened Resilience
  import opened Rules
  import opened Alerting

  /** The call of an attempt that fails, if one does, and whether a failed write took effect all the same. */
  datatype Fault =
    | NoFault
    | AtRead(i: nat)
    | AtPublish(i: nat, sent: bool)
    | AtMark(i: nat, written: bool)
    | AtFinish(written: bool)

  /** How the worker was put together. */
  datatype Setup = Setup(
    signalTopic: string, insightTopic: string, alertTopic: string, subscription: string, maxAttempts: int, limits: Limits,
    parse: (string, string) -> Option<Alerting.Event>, render: Alert -> string)

  datatype World = World(bus: BusState, cache: CacheState)

  // ---------------------------------------------------------------------------
  // Attempts
  // ---------------------------------------------------------------------------

  /** An attempt from alert number `i` on, and whether it failed. */
  function TryFrom(s: Setup, w: World, alerts: seq<Alert>, pkey: string, i: nat, fault: Fault, now: real): (World, bool)
    decreases |alerts| - i
  {
    if i >= |alerts| then
      if fault == AtFinish(false) then (w, true)
      else (w.(cache := Stored(w.cache, pkey, Flag(true), Some(IDEMPOTENCY_TTL), now)), fault.AtFinish?)
    else
      var alert := alerts[i];
      var key := PublishedKey(alert.dedupeKey);
      var read := w.(cache := Evicted(w.cache, key, now));
      if fault == AtRead(i) then (w, true)
      else if Marked(w.cache, key, now) then TryFrom(s, read, alerts, pkey, i + 1, fault, now)
      else if fault == AtPublish(i, false) then (read, true)
      else
        var sent := read.(bus := Published(read.bus, s.alertTopic, s.render(alert), alert.dedupeKey, alert.corr));
        var noted := sent.(cache := Stored(sent.cache, key, Flag(true), Some(IDEMPOTENCY_TTL), now));
        if fault == AtPublish(i, true) || fault == AtMark(i, false) then (sent, true)
        else if fault == AtMark(i, true) then (noted, true)
        else TryFrom(s, noted, alerts, pkey, i + 1, fault, now)
  }

  /** What the attempts from number `n` on come to. */
  datatype Retried = Retried(world: World, attempts: nat, ok: bool)

  function RetryFrom(s: Setup, w: World, alerts: seq<Alert>, pkey: string, n: nat, faults: nat -> Fault, now: real): Retried
    requires n < s.maxAttempts
    decreases s.maxAttempts - n
  {
    var (w', failed) := TryFrom(s, w, alerts, pkey, 0, faults(n), now);
    if !failed then Retried(w', n + 1, true)
    else if n + 1 < s.maxAttempts then RetryFrom(s, w', alerts, pkey, n + 1, faults, now)
    else Retried(w', n + 1, false)
  }

  // ---------------------------------------------------------------------------
  // One message
  // ---------------------------------------------------------------------------

  /** What handling a message comes to; `attempts` counts how often the operation was run. */
  datatype Effect = Effect(world: World, breaker: Breaker, outcome: Outcome, refused: bool, attempts: nat)

  function Finishing(w: World, breaker: Breaker, m: Message, outcome: Outcome, refused: bool, attempts: nat): Effect {
    Effect(w.(bus := if outcome == Dead then DeadLettered(w.bus, m) else Completed(w.bus, m)), breaker, outcome, refused, attempts)
  }

  function Process(s: Setup, w: World, breaker: Breaker, m: Message, topic: string, event: Alerting.Event,
                   faults: nat -> Fault, now: real): Effect
    requires s.maxAttempts >= 1
  {
    var pkey, lock := ProcessedKey(topic, event.id), LockKey(topic, event.id);
    var read := w.(cache := Evicted(w.cache, pkey, now));
    var (locked, claimed) := Claimed(read.cache, lock, Flag(true), Some(LOCK_TTL), now);
    if Marked(w.cache, pkey, now) then Finishing(read, breaker, m, Duplicate, false, 0)
    else if !claimed then Finishing(read.(cache := locked), breaker, m, Duplicate, false, 0)
    else
      var (admitting, how) := Admitted(breaker, s.limits, now);
      if how == Rejected then
        Finishing(read.(cache := Without(locked, lock)), admitting, m, Dead, true, 0)
      else
        var r := RetryFrom(s, read.(cache := locked), event.alerts, pkey, 0, faults, now);
        Finishing(r.world.(cache := Without(r.world.cache, lock)), Finished(admitting, s.limits, how, r.ok, now), m,
                  if r.ok then Processed else Dead, false, r.attempts)
  }

  /** The event in a message: another topic or an invalid body has none. */
  function EventIn(s: Setup, m: Message): Option<Alerting.Event> {
    if m.topic == s.signalTopic || m.topic == s.insightTopic then s.parse(m.topic, m.body) else None
  }

  function Handle(s: Setup, w: World, breaker: Breaker, m: Message, faults: nat -> Fault, now: real): Effect
    requires s.maxAttempts >= 1
  {
    match EventIn(s, m)
    case None => Finishing(w, breaker, m, Dead, false, 0)
    case Some(event) => Process(s, w, breaker, m, m.topic, event, faults, now)
  }

  /** How a message is counted. */
  function Charged(m: Counters, e: Effect, alerts: int): Counters {
    m.(processed := m.processed + (if e.outcome == Processed then 1 else 0),
       published := m.published + (if e.outcome == Processed then alerts else 0),
       duplicates := m.duplicates + (if e.outcome == Duplicate then 1 else 0),
       deadLettered := m.deadLettered + (if e.outcome == Dead then 1 else 0),
       refused := m.refused + (if e.refused then 1 else 0),
       retries := m.retries + (if e.attempts > 1 then e.attempts - 1 else 0))
  }

  // ---------------------------------------------------------------------------
  // A poll
  // ---------------------------------------------------------------------------

  datatype AlertState = AlertState(world: World, breaker: Breaker, metrics: Counters)

  function AlertCount(s: Setup, m: Message): int {
    if EventIn(s, m).Some? then |EventIn(s, m).value.alerts| else 0
  }

  function Handled(s: Setup, st: AlertState, m: Message, faults: nat -> Fault, now: real): AlertState
    requires s.maxAttempts >= 1
  {
    var e := Handle(s, st.world, st.breaker, m, faults, now);
    AlertState(e.world, e.breaker, Charged(st.metrics.(seen := st.metrics.seen + 1), e, AlertCount(s, m)))
  }

  /** The faults of message number `k` of a poll. */
  function FaultsOf(script: (nat, nat) -> Fault, k: nat): nat -> Fault {
    (n: nat) => script(k, n)
  }

  /** Messages handled one after the other, the first of them being number `first` of the poll. */
  function HandledAll(s: Setup, st: AlertState, messages: seq<Message>, first: nat, script: (nat, nat) -> Fault, now: real): AlertState
    requires s.maxAttempts >= 1
  {
    if messages == [] then st
    else
      var n := |messages| - 1;
      Handled(s, HandledAll(s, st, messages[..n], first, script, now), messages[n], FaultsOf(script, first + n), now)
  }

  /** What one topic's part of a poll comes to, and how many messages it took. */
  function TopicPolled(s: Setup, st: AlertState, topic: string, max: int, first: nat, script: (nat, nat) -> Fault, now: real): (AlertState, nat)
    requires s.maxAttempts >= 1
  {
    var (b, messages) := Received(st.world.bus, topic, s.subscription, max);
    (HandledAll(s, st.(world := st.world.(bus := b)), messages, first, script, now), |messages|)
  }

  function Polled(s: Setup, st: AlertState, max: int, script: (nat, nat) -> Fault, now: real): AlertState
    requires s.maxAttempts >= 1
  {
    var (st1, n) := TopicPolled(s, st, s.signalTopic, max, 0, script, now);
    TopicPolled(s, st1, s.insightTopic, max, n, script, now).0
  }

  // ---------------------------------------------------------------------------
  // One step at a time
  // ---------------------------------------------------------------------------

  lemma TryUnfolds(s: Setup, w: World, alerts: seq<Alert>, pkey: string, i: nat, fault: Fault, now: real)
    requires i <= |alerts|
    ensures i == |alerts| ==>
              TryFrom(s, w, alerts, pkey, i, fault, now)
              == if fault == AtFinish(false) then (w, true)
                 else (World(w.bus, Stored(w.cache, pkey, Flag(true), Some(IDEMPOTENCY_TTL), now)), fault.AtFinish?)
    ensures i < |alerts| ==>
              var alert := alerts[i];
              var key := PublishedKey(alert.dedupeKey);
              var read := Evicted(w.cache, key, now);
              var sent := Published(w.bus, s.alertTopic, s.render(alert), alert.dedupeKey, alert.corr);
              var noted := Stored(read, key, Flag(true), Some(IDEMPOTENCY_TTL), now);
              TryFrom(s, w, alerts, pkey, i, fault, now)
              == if fault == AtRead(i) then (w, true)
                 else if Marked(w.cache, key, now) then TryFrom(s, World(w.bus, read), alerts, pkey, i + 1, fault, now)
                 else if fault == AtPublish(i, false) then (World(w.bus, read), true)
                 else if fault == AtPublish(i, true) || fault == AtMark(i, false) then (World(sent, read), true)
                 else if fault == AtMark(i, true) then (World(sent, noted), true)
                 else TryFrom(s, World(sent, noted), alerts, pkey, i + 1, fault, now)
  {
    hide Published, Stored, Evicted, Marked, PublishedKey;
  }

  lemma RetryUnfolds(s: Setup, w: World, alerts: seq<Alert>, pkey: string, n: nat, faults: nat -> Fault, now: real)
    requires n < s.maxAttempts
    ensures var (w', failed) := TryFrom(s, w, alerts, pkey, 0, faults(n), now);
            RetryFrom(s, w, alerts, pkey, n, faults, now)
            == if !failed then Retried(w', n + 1, true)
               else if n + 1 < s.maxAttempts then RetryFrom(s, w', alerts, pkey, n + 1, faults, now)
               else Retried(w', n + 1, false)
  {
    hide TryFrom;
  }

  lemma ProcessUnfolds(s: Setup, w: World, breaker: Breaker, m: Message, topic: string, event: Alerting.Event,
                       faults: nat -> Fault, now: real)
    requires s.maxAttempts >= 1
    ensures var pkey, lock := ProcessedKey(topic, event.id), LockKey(topic, event.id);
            var read := Evicted(w.cache, pkey, now);
            var (locked, claimed) := Claimed(read, lock, Flag(true), Some(LOCK_TTL), now);
            var (admitting, how) := Admitted(breaker, s.limits, now);
            var r := RetryFrom(s, World(w.bus, locked), event.alerts, pkey, 0, faults, now);
            Process(s, w, breaker, m, topic, event, faults, now)
            == if Marked(w.cache, pkey, now) then Effect(World(Completed(w.bus, m), read), breaker, Duplicate, false, 0)
               else if !claimed then Effect(World(Completed(w.bus, m), locked), breaker, Duplicate, false, 0)
               else if how == Rejected then
                 Effect(World(DeadLettered(w.bus, m), Without(locked, lock)), admitting, Dead, true, 0)
               else
                 Effect(World(if r.ok then Completed(r.world.bus, m) else DeadLettered(r.world.bus, m), Without(r.world.cache, lock)),
                        Finished(admitting, s.limits, how, r.ok, now), if r.ok then Processed else Dead, false, r.attempts)
  {
    hide Marked, Evicted, Claimed, ProcessedKey, LockKey, Admitted, Finished, Without, RetryFrom, Completed, DeadLettered;
  }

  lemma ChargedIs(m: Counters, e: Effect, alerts: int)
    ensures e.outcome == Duplicate && !e.refused && e.attempts == 0 ==> Charged(m, e, alerts) == m.(duplicates := m.duplicates + 1)
    ensures e.outcome == Dead && e.refused && e.attempts == 0 ==>
              Charged(m, e, alerts) == m.(refused := m.refused + 1, deadLettered := m.deadLettered + 1)
    ensures e.outcome == Dead && !e.refused && e.attempts >= 1 ==>
              Charged(m, e, alerts) == m.(retries := m.retries + e.attempts - 1, deadLettered := m.deadLettered + 1)
    ensures e.outcome == Processed && !e.refused && e.attempts >= 1 ==>
              Charged(m, e, alerts)
              == m.(retries := m.retries + e.attempts - 1, processed := m.processed + 1, published := m.published + alerts)
  {
  }

  // ---------------------------------------------------------------------------
  // When an attempt fails
  // ---------------------------------------------------------------------------

  /** The alert is the first of the event with its key, and was not marked as published before. */
  predicate IsFresh(c: CacheState, alerts: seq<Alert>, i: nat, now: real) {
    && i < |alerts|
    && !Marked(c, PublishedKey(alerts[i].dedupeKey), now)
    && forall j | 0 <= j < i :: alerts[j].dedupeKey != alerts[i].dedupeKey
  }

  /** The attempt gets as far as the call that fails. */
  predicate Meets(c: CacheState, alerts: seq<Alert>, fault: Fault, now: real) {
    match fault
    case NoFault => false
    case AtRead(i) => i < |alerts|
    case AtPublish(i, _) => IsFresh(c, alerts, i, now)
    case AtMark(i, _) => IsFresh(c, alerts, i, now)
    case AtFinish(_) => true
  }

  /** The fault lies at alert number `i` or later, so an attempt that got there has not met it yet. */
  predicate Ahead(fault: Fault, i: nat) {
    match fault
    case AtRead(j) => j >= i
    case AtPublish(j, _) => j >= i
    case AtMark(j, _) => j >= i
    case _ => true
  }

  predicate HasKeyBefore(alerts: seq<Alert>, i: nat, id: string)
    requires i <= |alerts|
  {
    exists j | 0 <= j < i :: alerts[j].dedupeKey == id
  }

  /** After `i` alerts exactly those are marked that were marked before or are among them. */
  ghost predicate MarkedSoFar(c0: CacheState, c: CacheState, alerts: seq<Alert>, i: nat, now: real)
    requires i <= |alerts|
  {
    forall id :: Marked(c, PublishedKey(id), now) <==> Marked(c0, PublishedKey(id), now) || HasKeyBefore(alerts, i, id)
  }

  lemma NextMarked(c0: CacheState, c: CacheState, c': CacheState, alerts: seq<Alert>, i: nat, now: real)
    requires i < |alerts| && MarkedSoFar(c0, c, alerts, i, now)
    requires forall id :: Marked(c', PublishedKey(id), now) <==> id == alerts[i].dedupeKey || Marked(c, PublishedKey(id), now)
    ensures MarkedSoFar(c0, c', alerts, i + 1, now)
  {
    hide Marked, PublishedKey;
    forall id
      ensures HasKeyBefore(alerts, i + 1, id) <==> HasKeyBefore(alerts, i, id) || id == alerts[i].dedupeKey
    {
      if HasKeyBefore(alerts, i, id) {
        var j :| 0 <= j < i && alerts[j].dedupeKey == id;
        assert HasKeyBefore(alerts, i + 1, id);
      }
    }
  }

  lemma ReadMarks(c: CacheState, id: string, now: real)
    ensures forall other :: Marked(Evicted(c, PublishedKey(id), now), PublishedKey(other), now) <==> Marked(c, PublishedKey(other), now)
    ensures var c' := Stored(Evicted(c, PublishedKey(id), now), PublishedKey(id), Flag(true), Some(IDEMPOTENCY_TTL), now);
            forall other :: Marked(c', PublishedKey(other), now) <==> other == id || Marked(c, PublishedKey(other), now)
  {
    var read := Evicted(c, PublishedKey(id), now);
    GetGrows(c, PublishedKey(id), now);
    KeysApart("", "", id, id);
    MarkGrows(read, PublishedKey(id), now);
    hide Marked, Evicted, Stored, PublishedKey;
    forall other
      ensures PublishedKey(other) == PublishedKey(id) <==> other == id
    {
      KeysApart("", "", other, id);
    }
  }

  /** At alert `i`, whether the fault strikes here. */
  lemma FreshHere(c0: CacheState, c: CacheState, alerts: seq<Alert>, i: nat, now: real)
    requires i < |alerts| && MarkedSoFar(c0, c, alerts, i, now)
    ensures IsFresh(c0, alerts, i, now) <==> !Marked(c, PublishedKey(alerts[i].dedupeKey), now)
  {
    hide Marked, PublishedKey;
    var id := alerts[i].dedupeKey;
    assert HasKeyBefore(alerts, i, id) <==> exists j | 0 <= j < i :: alerts[j].dedupeKey == id;
  }

  /** An attempt fails exactly when it meets a fault. */
  lemma {:induction false} FailsFrom(s: Setup, c0: CacheState, w: World, alerts: seq<Alert>, pkey: string, i: nat, fault: Fault, now: real)
    requires i <= |alerts| && MarkedSoFar(c0, w.cache, alerts, i, now) && (Ahead(fault, i) || !Meets(c0, alerts, fault, now))
    ensures TryFrom(s, w, alerts, pkey, i, fault, now).1 <==> Meets(c0, alerts, fault, now)
    decreases |alerts| - i
  {
    hide Marked, PublishedKey, Published, Stored, Evicted, MarkedSoFar;
    if i < |alerts| {
      var id := alerts[i].dedupeKey;
      var read := Evicted(w.cache, PublishedKey(id), now);
      FreshHere(c0, w.cache, alerts, i, now);
      ReadMarks(w.cache, id, now);
      if Marked(w.cache, PublishedKey(id), now) {
        NextMarked(c0, w.cache, read, alerts, i, now);
        if fault != AtRead(i) {
          FailsFrom(s, c0, w.(cache := read), alerts, pkey, i + 1, fault, now);
        }
      } else {
        var noted := Stored(read, PublishedKey(id), Flag(true), Some(IDEMPOTENCY_TTL), now);
        NextMarked(c0, w.cache, noted, alerts, i, now);
        if fault != AtRead(i) && !(fault.AtPublish? && fault.i == i) && !(fault.AtMark? && fault.i == i) {
          var sent := Published(w.bus, s.alertTopic, s.render(alerts[i]), id, alerts[i].corr);
          FailsFrom(s, c0, World(sent, noted), alerts, pkey, i + 1, fault, now);
        }
      }
    }
  }

  lemma NoneMarkedYet(c: CacheState, alerts: seq<Alert>, now: real)
    ensures MarkedSoFar(c, c, alerts, 0, now)
  {
    hide Marked, PublishedKey;
  }

  lemma AttemptFails(s: Setup, w: World, alerts: seq<Alert>, pkey: string, fault: Fault, now: real)
    ensures TryFrom(s, w, alerts, pkey, 0, fault, now).1 <==> Meets(w.cache, alerts, fault, now)
  {
    hide TryFrom, Meets, MarkedSoFar;
    NoneMarkedYet(w.cache, alerts, now);
    FailsFrom(s, w.cache, w, alerts, pkey, 0, fault, now);
  }

  // ---------------------------------------------------------------------------
  // When an event is processed
  // ---------------------------------------------------------------------------

  /** The bus and the cache as attempt number `n` finds them, all earlier attempts having failed. */
  function Before(s: Setup, w: World, alerts: seq<Alert>, pkey: string, n: nat, faults: nat -> Fault, now: real): World {
    if n == 0 then w
    else TryFrom(s, Before(s, w, alerts, pkey, n - 1, faults, now), alerts, pkey, 0, faults(n - 1), now).0
  }

  /** Attempt number `n` meets no fault. */
  predicate GoesWell(s: Setup, w: World, alerts: seq<Alert>, pkey: string, n: nat, faults: nat -> Fault, now: real) {
    !Meets(Before(s, w, alerts, pkey, n, faults, now).cache, alerts, faults(n), now)
  }

  /** The retries succeed exactly when one of the attempts left meets no fault, and stop at the first that does. */
  lemma {:induction false} RetriesSucceed(s: Setup, w: World, alerts: seq<Alert>, pkey: string, n: nat, faults: nat -> Fault, now: real)
    requires n < s.maxAttempts
    ensures var r := RetryFrom(s, Before(s, w, alerts, pkey, n, faults, now), alerts, pkey, n, faults, now);
            && (r.ok <==> exists k | n <= k < s.maxAttempts :: GoesWell(s, w, alerts, pkey, k, faults, now))
            && n < r.attempts <= s.maxAttempts
            && (r.ok <==> GoesWell(s, w, alerts, pkey, r.attempts - 1, faults, now))
            && (!r.ok ==> r.attempts == s.maxAttempts)
            && (forall k | n <= k < r.attempts - 1 :: !GoesWell(s, w, alerts, pkey, k, faults, now))
    decreases s.maxAttempts - n
  {
    hide TryFrom, Meets;
    AttemptFails(s, Before(s, w, alerts, pkey, n, faults, now), alerts, pkey, faults(n), now);
    if GoesWell(s, w, alerts, pkey, n, faults, now) {
    } else if n + 1 < s.maxAttempts {
      RetriesSucceed(s, w, alerts, pkey, n + 1, faults, now);
    }
  }

  /** The event is neither marked as processed nor locked. */
  predicate IsOpen(c: CacheState, topic: string, event: Alerting.Event, now: real) {
    !Marked(c, ProcessedKey(topic, event.id), now) && !Present(c, LockKey(topic, event.id), now)
  }

  /** The bus and the cache as the first attempt finds them. */
  function Locked(w: World, topic: string, event: Alerting.Event, now: real): World {
    w.(cache := Claimed(Evicted(w.cache, ProcessedKey(topic, event.id), now), LockKey(topic, event.id), Flag(true), Some(LOCK_TTL), now).0)
  }

  /** One of the attempts allowed meets no fault. */
  predicate SomeAttemptGoesWell(s: Setup, w: World, topic: string, event: Alerting.Event, faults: nat -> Fault, now: real) {
    exists n: nat | n < s.maxAttempts ::
      GoesWell(s, Locked(w, topic, event, now), event.alerts, ProcessedKey(topic, event.id), n, faults, now)
  }

  /**
    How an event ends. It is a duplicate exactly when it is marked or locked. Otherwise it is processed
    exactly when the breaker admits a call and one of the attempts meets no fault; it is refused, with
    no attempt made, exactly when the breaker does not. The breaker learns the outcome of an admitted
    call and nothing else.
   */
  ghost predicate Decided(s: Setup, w: World, breaker: Breaker, topic: string, event: Alerting.Event, faults: nat -> Fault,
                          e: Effect, now: real)
  {
    var open, admits := IsOpen(w.cache, topic, event, now), Admits(breaker, s.limits, now);
    && (e.outcome == Duplicate <==> !open)
    && (e.outcome == Processed <==> open && admits && SomeAttemptGoesWell(s, w, topic, event, faults, now))
    && (e.refused <==> open && !admits)
    && (e.attempts == 0 <==> !open || !admits)
    && e.attempts <= s.maxAttempts
    && (e.outcome == Dead && !e.refused ==> e.attempts == s.maxAttempts)
    && (if !open then e.breaker == breaker
        else if !admits then e.breaker == HalfOpened(breaker, s.limits, now)
        else
          var (admitting, how) := Admitted(breaker, s.limits, now);
          e.breaker == Finished(admitting, s.limits, how, e.outcome == Processed, now))
    && (e.attempts == 0 ==> forall t :: e.world.bus.Seen(t) == w.bus.Seen(t))
  }

  lemma ClaimWhen(c: CacheState, topic: string, event: Alerting.Event, now: real)
    ensures var read := Evicted(c, ProcessedKey(topic, event.id), now);
            Claimed(read, LockKey(topic, event.id), Flag(true), Some(LOCK_TTL), now).1
            <==> !Present(c, LockKey(topic, event.id), now)
  {
    EvictionIsInvisible(c, ProcessedKey(topic, event.id), now, LockKey(topic, event.id), now);
    ClaimIsExclusive(Evicted(c, ProcessedKey(topic, event.id), now), LockKey(topic, event.id), Flag(true), Some(LOCK_TTL), now,
                     LockKey(topic, event.id), now);
  }

  lemma SettlingSeesNothing(b: BusState, m: Message, t: string)
    ensures Completed(b, m).Seen(t) == b.Seen(t) == DeadLettered(b, m).Seen(t)
  {
  }

  lemma ProcessIsDecided(s: Setup, w: World, breaker: Breaker, m: Message, topic: string, event: Alerting.Event,
                         faults: nat -> Fault, now: real)
    requires s.maxAttempts >= 1
    ensures Decided(s, w, breaker, topic, event, faults, Process(s, w, breaker, m, topic, event, faults, now), now)
  {
    hide Marked, Evicted, Claimed, Present, ProcessedKey, LockKey, Admitted, Finished, HalfOpened, Without, RetryFrom, GoesWell,
         Completed, DeadLettered, BusState.Seen, Admits;
    ClaimWhen(w.cache, topic, event, now);
    AdmitsWhen(breaker, s.limits, now);
    RetriesSucceed(s, Locked(w, topic, event, now), event.alerts, ProcessedKey(topic, event.id), 0, faults, now);
    forall t
      ensures Completed(w.bus, m).Seen(t) == w.bus.Seen(t) == DeadLettered(w.bus, m).Seen(t)
    {
      SettlingSeesNothing(w.bus, m, t);
    }
  }
}
