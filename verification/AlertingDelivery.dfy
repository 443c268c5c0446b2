/**
  What reaches the subscribers of the alert topic when an event is handled: however many attempts
  it takes and whatever they fail at, its alerts arrive in order, without a gap and once each. And
  how long the event and its alerts are remembered.
 */
module AlertingDelivery {
  import opened Wrappers
  import opened Bus
  import opened Cache
  import opened Resilience
  import opened Rules
  import opened Alerting
  import opened AlertingSpec

  /** A subscription's copies of some alerts, numbered from `number`. */
  function Copies(s: Setup, sub: string, alerts: seq<Alert>, number: nat): (r: seq<Message>)
    ensures |r| == |alerts|
    ensures forall i | 0 <= i < |alerts| ::
              r[i] == Message(s.alertTopic, sub, s.render(alerts[i]), alerts[i].dedupeKey, alerts[i].corr, number + i)
  {
    if alerts == [] then []
    else
      var n := |alerts| - 1;
      Copies(s, sub, alerts[..n], number)
      + [Message(s.alertTopic, sub, s.render(alerts[n]), alerts[n].dedupeKey, alerts[n].corr, number + n)]
  }

  /** Nothing of these alerts was sent before. */
  predicate Unsent(b: BusState, c: CacheState, alertTopic: string, alerts: seq<Alert>, now: real) {
    forall i | 0 <= i < |alerts| ::
      alerts[i].dedupeKey !in b.Seen(alertTopic) && !Marked(c, PublishedKey(alerts[i].dedupeKey), now)
  }

  /** What the bus holds since `b0`: the first `p` of the alerts, one copy each. */
  ghost predicate Holds(s: Setup, b0: BusState, b: BusState, alerts: seq<Alert>, p: nat, sub: string) {
    && p <= |alerts|
    && sub in b.QueuesOf(s.alertTopic)
    && b.Queue(s.alertTopic, sub) == b0.Queue(s.alertTopic, sub) + Copies(s, sub, alerts[..p], b0.Next(s.alertTopic))
    && b.Next(s.alertTopic) == b0.Next(s.alertTopic) + p
    && (forall i | 0 <= i < p :: alerts[i].dedupeKey in b.Seen(s.alertTopic))
  }

  /** The first `p` alerts have been sent and nothing of the others. */
  ghost predicate Sent(s: Setup, b0: BusState, w: World, alerts: seq<Alert>, p: nat, sub: string, now: real) {
    Holds(s, b0, w.bus, alerts, p, sub) && Unsent(w.bus, w.cache, s.alertTopic, alerts[p..], now)
  }

  lemma PublishedNext(b: BusState, topic: string, body: string, id: string, corr: Option<string>, sub: string)
    requires id !in b.Seen(topic) && sub in b.QueuesOf(topic)
    ensures var b' := Published(b, topic, body, id, corr);
            && sub in b'.QueuesOf(topic)
            && b'.Queue(topic, sub) == b.Queue(topic, sub) + [Message(topic, sub, body, id, corr, b.Next(topic))]
            && b'.Next(topic) == b.Next(topic) + 1
            && b'.Seen(topic) == b.Seen(topic) + {id}
  {
  }

  /** The next alert goes out. */
  lemma HoldsOneMore(s: Setup, b0: BusState, b: BusState, alerts: seq<Alert>, p: nat, sub: string)
    requires Holds(s, b0, b, alerts, p, sub) && p < |alerts| && alerts[p].dedupeKey !in b.Seen(s.alertTopic)
    ensures Holds(s, b0, Published(b, s.alertTopic, s.render(alerts[p]), alerts[p].dedupeKey, alerts[p].corr), alerts, p + 1, sub)
  {
    hide Published, BusState.QueuesOf, BusState.Queue, BusState.Seen, BusState.Next;
    PublishedNext(b, s.alertTopic, s.render(alerts[p]), alerts[p].dedupeKey, alerts[p].corr, sub);
    CopiesMore(s, sub, alerts, p, b0.Next(s.alertTopic));
    hide Copies;
  }

  lemma CopiesMore(s: Setup, sub: string, alerts: seq<Alert>, p: nat, number: nat)
    requires p < |alerts|
    ensures Copies(s, sub, alerts[..p + 1], number)
            == Copies(s, sub, alerts[..p], number)
               + [Message(s.alertTopic, sub, s.render(alerts[p]), alerts[p].dedupeKey, alerts[p].corr, number + p)]
  {
    assert alerts[..p + 1][..p] == alerts[..p];
  }

  /** Writing markers for alerts already sent leaves the others unsent. */
  lemma StillUnsent(b: BusState, c: CacheState, b': BusState, c': CacheState, alertTopic: string, alerts: seq<Alert>, p: nat,
                    id: string, now: real)
    requires p <= |alerts| && Unsent(b, c, alertTopic, alerts[p..], now)
    requires b'.Seen(alertTopic) <= b.Seen(alertTopic) + {id}
    requires forall other :: Marked(c', PublishedKey(other), now) ==> other == id || Marked(c, PublishedKey(other), now)
    ensures forall q | p <= q <= |alerts| && (forall j | q <= j < |alerts| :: alerts[j].dedupeKey != id) ::
              Unsent(b', c', alertTopic, alerts[q..], now)
  {
    hide Marked, PublishedKey, BusState.Seen;
    assert forall j | p <= j < |alerts| :: alerts[j] == alerts[p..][j - p];
  }

  /** Reading the marker of alert `i`, sending the alert and writing its marker: where that leads from `p` alerts sent. */
  lemma OneAlert(s: Setup, b0: BusState, w: World, alerts: seq<Alert>, i: nat, p: nat, sub: string, now: real)
    requires DistinctKeys(alerts) && Sent(s, b0, w, alerts, p, sub, now) && i <= p && i < |alerts|
    ensures var alert, key := alerts[i], PublishedKey(alerts[i].dedupeKey);
            var read := Evicted(w.cache, key, now);
            var noted := Stored(read, key, Flag(true), Some(IDEMPOTENCY_TTL), now);
            var sent := Published(w.bus, s.alertTopic, s.render(alert), alert.dedupeKey, alert.corr);
            var q := if i < p then p else p + 1;
            && Sent(s, b0, World(w.bus, read), alerts, p, sub, now)
            && Sent(s, b0, World(sent, read), alerts, q, sub, now)
            && Sent(s, b0, World(sent, noted), alerts, q, sub, now)
            && (Marked(w.cache, key, now) ==> i < p)
  {
    var id := alerts[i].dedupeKey;
    var key := PublishedKey(id);
    var read := Evicted(w.cache, key, now);
    var noted := Stored(read, key, Flag(true), Some(IDEMPOTENCY_TTL), now);
    var sent := Published(w.bus, s.alertTopic, s.render(alerts[i]), id, alerts[i].corr);
    ReadMarks(w.cache, id, now);
    hide Marked, PublishedKey, Evicted, Stored, Holds, BusState.Seen;
    if i < p {
      SeenAlready(s, b0, w.bus, alerts, i, p, sub);
      StillUnsent(w.bus, w.cache, w.bus, read, s.alertTopic, alerts, p, id, now);
      StillUnsent(w.bus, w.cache, w.bus, noted, s.alertTopic, alerts, p, id, now);
    } else {
      assert alerts[p..][0] == alerts[i];
      HoldsOneMore(s, b0, w.bus, alerts, p, sub);
      SeenMore(w.bus, s.alertTopic, s.render(alerts[i]), id, alerts[i].corr);
      UnsentRead(w.bus, w.cache, read, s.alertTopic, alerts[p..], now);
      StillUnsent(w.bus, w.cache, sent, read, s.alertTopic, alerts, p, id, now);
      StillUnsent(w.bus, w.cache, sent, noted, s.alertTopic, alerts, p, id, now);
    }
  }

  lemma SeenAlready(s: Setup, b0: BusState, b: BusState, alerts: seq<Alert>, i: nat, p: nat, sub: string)
    requires Holds(s, b0, b, alerts, p, sub) && i < p
    ensures Published(b, s.alertTopic, s.render(alerts[i]), alerts[i].dedupeKey, alerts[i].corr) == b
  {
  }

  lemma SeenMore(b: BusState, topic: string, body: string, id: string, corr: Option<string>)
    ensures Published(b, topic, body, id, corr).Seen(topic) <= b.Seen(topic) + {id}
  {
  }

  lemma UnsentRead(b: BusState, c: CacheState, c': CacheState, alertTopic: string, alerts: seq<Alert>, now: real)
    requires Unsent(b, c, alertTopic, alerts, now)
    requires forall other :: Marked(c', PublishedKey(other), now) ==> Marked(c, PublishedKey(other), now)
    ensures Unsent(b, c', alertTopic, alerts, now)
  {
    hide Marked, PublishedKey, BusState.Seen;
  }

  /** Writing the event's own marker leaves the alerts unsent that were. */
  lemma FinishKeeps(s: Setup, b0: BusState, w: World, alerts: seq<Alert>, p: nat, sub: string, topic: string, eventId: string, now: real)
    requires Sent(s, b0, w, alerts, p, sub, now)
    ensures Sent(s, b0, w.(cache := Stored(w.cache, ProcessedKey(topic, eventId), Flag(true), Some(IDEMPOTENCY_TTL), now)),
                 alerts, p, sub, now)
  {
    var pkey := ProcessedKey(topic, eventId);
    var marked := Stored(w.cache, pkey, Flag(true), Some(IDEMPOTENCY_TTL), now);
    KeysApart(topic, eventId, "", "");
    MarkGrows(w.cache, pkey, now);
    forall other
      ensures Marked(marked, PublishedKey(other), now) ==> Marked(w.cache, PublishedKey(other), now)
    {
      KeysApart(topic, eventId, other, other);
    }
    hide Marked, PublishedKey, Stored, Holds;
    UnsentRead(w.bus, w.cache, marked, s.alertTopic, alerts[p..], now);
  }

  /** One attempt sends on from where the ones before it stopped, and one that does not fail gets to the end. */
  lemma {:induction false} AttemptSends(s: Setup, b0: BusState, w: World, alerts: seq<Alert>, topic: string, eventId: string, i: nat,
                                        p: nat, fault: Fault, sub: string, now: real)
    returns (q: nat)
    requires DistinctKeys(alerts) && i <= p <= |alerts| && Sent(s, b0, w, alerts, p, sub, now)
    ensures var (w', failed) := TryFrom(s, w, alerts, ProcessedKey(topic, eventId), i, fault, now);
            p <= q <= |alerts| && Sent(s, b0, w', alerts, q, sub, now) && (!failed ==> q == |alerts|)
    decreases |alerts| - i
  {
    hide Marked, PublishedKey, ProcessedKey, Published, Stored, Evicted, Sent, DistinctKeys;
    var pkey := ProcessedKey(topic, eventId);
    TryUnfolds(s, w, alerts, pkey, i, fault, now);
    q := p;
    if i == |alerts| {
      FinishKeeps(s, b0, w, alerts, p, sub, topic, eventId, now);
    } else {
      OneAlert(s, b0, w, alerts, i, p, sub, now);
      var alert, key := alerts[i], PublishedKey(alerts[i].dedupeKey);
      var read := Evicted(w.cache, key, now);
      var sent := Published(w.bus, s.alertTopic, s.render(alert), alert.dedupeKey, alert.corr);
      var noted := Stored(read, key, Flag(true), Some(IDEMPOTENCY_TTL), now);
      if fault == AtRead(i) {
      } else if Marked(w.cache, key, now) {
        q := AttemptSends(s, b0, World(w.bus, read), alerts, topic, eventId, i + 1, p, fault, sub, now);
      } else if fault != AtPublish(i, false) {
        q := if i < p then p else p + 1;
        if !(fault == AtPublish(i, true) || fault == AtMark(i, false) || fault == AtMark(i, true)) {
          q := AttemptSends(s, b0, World(sent, noted), alerts, topic, eventId, i + 1, q, fault, sub, now);
        }
      }
    }
  }

  lemma {:induction false} RetriesSend(s: Setup, b0: BusState, w: World, alerts: seq<Alert>, topic: string, eventId: string, n: nat,
                                       p: nat, faults: nat -> Fault, sub: string, now: real)
    returns (q: nat)
    requires n < s.maxAttempts && DistinctKeys(alerts) && p <= |alerts| && Sent(s, b0, w, alerts, p, sub, now)
    ensures var r := RetryFrom(s, w, alerts, ProcessedKey(topic, eventId), n, faults, now);
            p <= q <= |alerts| && Sent(s, b0, r.world, alerts, q, sub, now) && (r.ok ==> q == |alerts|) && r.attempts > n
    decreases s.maxAttempts - n
  {
    hide TryFrom, Sent, DistinctKeys, ProcessedKey;
    q := AttemptSends(s, b0, w, alerts, topic, eventId, 0, p, faults(n), sub, now);
    RetryUnfolds(s, w, alerts, ProcessedKey(topic, eventId), n, faults, now);
    var (w', failed) := TryFrom(s, w, alerts, ProcessedKey(topic, eventId), 0, faults(n), now);
    if failed && n + 1 < s.maxAttempts {
      q := RetriesSend(s, b0, w', alerts, topic, eventId, n + 1, q, faults, sub, now);
    }
  }

  /** Looking at an event's marker and taking its lock leaves the markers of alerts alone. */
  lemma LockingKeeps(c: CacheState, topic: string, eventId: string, now: real)
    ensures var read := Evicted(c, ProcessedKey(topic, eventId), now);
            var locked := Claimed(read, LockKey(topic, eventId), Flag(true), Some(LOCK_TTL), now).0;
            forall other :: Marked(locked, PublishedKey(other), now) ==> Marked(c, PublishedKey(other), now)
  {
    var read := Evicted(c, ProcessedKey(topic, eventId), now);
    GetGrows(c, ProcessedKey(topic, eventId), now);
    forall other
      ensures Marked(Claimed(read, LockKey(topic, eventId), Flag(true), Some(LOCK_TTL), now).0, PublishedKey(other), now)
              ==> Marked(read, PublishedKey(other), now)
    {
      KeysApart(topic, eventId, other, other);
      ClaimElsewhere(read, LockKey(topic, eventId), PublishedKey(other), now);
    }
  }

  lemma ClaimElsewhere(c: CacheState, lock: string, key: string, now: real)
    requires lock != key
    ensures Marked(Claimed(c, lock, Flag(true), Some(LOCK_TTL), now).0, key, now) ==> Marked(c, key, now)
  {
  }

  lemma Settled(b: BusState, m: Message, t: string, sub: string)
    ensures Completed(b, m).Queue(t, sub) == b.Queue(t, sub) == DeadLettered(b, m).Queue(t, sub)
  {
  }

  lemma NothingSent(s: Setup, w: World, cache: CacheState, alerts: seq<Alert>, sub: string, now: real)
    requires Unsent(w.bus, w.cache, s.alertTopic, alerts, now) && sub in w.bus.QueuesOf(s.alertTopic)
    requires forall other :: Marked(cache, PublishedKey(other), now) ==> Marked(w.cache, PublishedKey(other), now)
    ensures Sent(s, w.bus, World(w.bus, cache), alerts, 0, sub, now)
  {
    UnsentRead(w.bus, w.cache, cache, s.alertTopic, alerts, now);
    assert alerts[0..] == alerts;
    hide Marked, PublishedKey, Unsent;
  }

  /**
    An event none of whose alerts was sent before: every subscription of the alert topic gets the
    first of them, in order and without a gap, rendered, one copy each; all of them if the event is
    processed, and none if it is a duplicate or refused.
   */
  lemma AlertsArrive(s: Setup, w: World, breaker: Breaker, m: Message, topic: string, event: Alerting.Event,
                     faults: nat -> Fault, sub: string, now: real)
    returns (p: nat)
    requires s.maxAttempts >= 1 && DistinctKeys(event.alerts)
    requires Unsent(w.bus, w.cache, s.alertTopic, event.alerts, now) && sub in w.bus.QueuesOf(s.alertTopic)
    ensures var e := Process(s, w, breaker, m, topic, event, faults, now);
            && p <= |event.alerts|
            && e.world.bus.Queue(s.alertTopic, sub)
               == w.bus.Queue(s.alertTopic, sub) + Copies(s, sub, event.alerts[..p], w.bus.Next(s.alertTopic))
            && (e.outcome == Processed ==> p == |event.alerts|)
            && (e.outcome == Duplicate || e.refused ==> p == 0)
  {
    hide Marked, PublishedKey, ProcessedKey, LockKey, Stored, Evicted, Claimed, Without, Admitted, Finished, RetryFrom, Completed,
         DeadLettered, Unsent, DistinctKeys, BusState.QueuesOf, BusState.Queue, BusState.Next, Holds;
    ProcessUnfolds(s, w, breaker, m, topic, event, faults, now);
    LockingKeeps(w.cache, topic, event.id, now);
    var locked := Claimed(Evicted(w.cache, ProcessedKey(topic, event.id), now), LockKey(topic, event.id), Flag(true),
                          Some(LOCK_TTL), now).0;
    NothingSent(s, w, locked, event.alerts, sub, now);
    var q := RetriesSend(s, w.bus, World(w.bus, locked), event.alerts, topic, event.id, 0, 0, faults, sub, now);
    var after := RetryFrom(s, World(w.bus, locked), event.alerts, ProcessedKey(topic, event.id), 0, faults, now).world.bus;
    Settled(w.bus, m, s.alertTopic, sub);
    Settled(after, m, s.alertTopic, sub);
    HeldQueue(s, w.bus, after, event.alerts, q, sub);
    var e := Process(s, w, breaker, m, topic, event, faults, now);
    p := if e.attempts == 0 then 0 else q;
    assert event.alerts[..0] == [] && w.bus.Queue(s.alertTopic, sub) + [] == w.bus.Queue(s.alertTopic, sub);
  }

  lemma HeldQueue(s: Setup, b0: BusState, b: BusState, alerts: seq<Alert>, p: nat, sub: string)
    requires Holds(s, b0, b, alerts, p, sub)
    ensures p <= |alerts|
    ensures b.Queue(s.alertTopic, sub) == b0.Queue(s.alertTopic, sub) + Copies(s, sub, alerts[..p], b0.Next(s.alertTopic))
  {
  }

  // ---------------------------------------------------------------------------
  // How long the markers last
  // ---------------------------------------------------------------------------

  /** A marker that was set to expire at `end`. */
  predicate Until(c: CacheState, key: string, end: real) {
    key in c.store && c.store[key] == Flag(true) && key in c.expiry && c.expiry[key] == end
  }

  lemma UntilReads(c: CacheState, key: string, end: real, t: real)
    requires Until(c, key, end)
    ensures Marked(c, key, t) <==> t <= end
  {
  }

  /** Alerts marked since `c0` are so for the full time. */
  ghost predicate Lasting(c0: CacheState, c: CacheState, now: real) {
    forall id :: Marked(c, PublishedKey(id), now) ==>
                   Marked(c0, PublishedKey(id), now) || Until(c, PublishedKey(id), now + IDEMPOTENCY_TTL)
  }

  predicate AllMarked(c: CacheState, alerts: seq<Alert>, i: nat, now: real)
    requires i <= |alerts|
  {
    forall j | 0 <= j < i :: Marked(c, PublishedKey(alerts[j].dedupeKey), now)
  }

  lemma EvictedKeeps(c: CacheState, key: string, other: string, now: real)
    requires Until(c, other, now + IDEMPOTENCY_TTL)
    ensures Until(Evicted(c, key, now), other, now + IDEMPOTENCY_TTL)
  {
  }

  lemma StoredKeeps(c: CacheState, key: string, other: string, now: real)
    ensures var c' := Stored(c, key, Flag(true), Some(IDEMPOTENCY_TTL), now);
            && Until(c', key, now + IDEMPOTENCY_TTL)
            && (Until(c, other, now + IDEMPOTENCY_TTL) ==> Until(c', other, now + IDEMPOTENCY_TTL))
  {
  }

  /** Reading the marker of an alert, and setting it. */
  lemma LastingStep(c0: CacheState, c: CacheState, alerts: seq<Alert>, i: nat, now: real)
    requires i < |alerts| && Lasting(c0, c, now) && AllMarked(c, alerts, i, now)
    ensures var key := PublishedKey(alerts[i].dedupeKey);
            var read := Evicted(c, key, now);
            var noted := Stored(read, key, Flag(true), Some(IDEMPOTENCY_TTL), now);
            && Lasting(c0, read, now) && Lasting(c0, noted, now)
            && (Marked(c, key, now) ==> AllMarked(read, alerts, i + 1, now))
            && AllMarked(noted, alerts, i + 1, now)
  {
    var id := alerts[i].dedupeKey;
    var key := PublishedKey(id);
    var read := Evicted(c, key, now);
    var noted := Stored(read, key, Flag(true), Some(IDEMPOTENCY_TTL), now);
    ReadMarks(c, id, now);
    hide Marked, PublishedKey, Until, Evicted, Stored;
    forall other
      ensures Marked(read, PublishedKey(other), now) ==>
                Marked(c0, PublishedKey(other), now) || Until(read, PublishedKey(other), now + IDEMPOTENCY_TTL)
      ensures Marked(noted, PublishedKey(other), now) ==>
                Marked(c0, PublishedKey(other), now) || Until(noted, PublishedKey(other), now + IDEMPOTENCY_TTL)
    {
      if Until(c, PublishedKey(other), now + IDEMPOTENCY_TTL) {
        EvictedKeeps(c, key, PublishedKey(other), now);
      }
      StoredKeeps(read, key, PublishedKey(other), now);
    }
  }

  /** Setting an event's own marker. */
  lemma LastingFinish(c0: CacheState, c: CacheState, alerts: seq<Alert>, topic: string, eventId: string, now: real)
    requires Lasting(c0, c, now)
    ensures var c' := Stored(c, ProcessedKey(topic, eventId), Flag(true), Some(IDEMPOTENCY_TTL), now);
            && Until(c', ProcessedKey(topic, eventId), now + IDEMPOTENCY_TTL)
            && Lasting(c0, c', now)
            && (AllMarked(c, alerts, |alerts|, now) ==> AllMarked(c', alerts, |alerts|, now))
  {
    var pkey := ProcessedKey(topic, eventId);
    var c' := Stored(c, pkey, Flag(true), Some(IDEMPOTENCY_TTL), now);
    KeysApart(topic, eventId, "", "");
    MarkGrows(c, pkey, now);
    StoredKeeps(c, pkey, pkey, now);
    hide Marked, Until, Stored, ProcessedKey;
    forall id
      ensures Marked(c', PublishedKey(id), now) ==>
                Marked(c0, PublishedKey(id), now) || Until(c', PublishedKey(id), now + IDEMPOTENCY_TTL)
    {
      KeysApart(topic, eventId, id, id);
      StoredKeeps(c, pkey, PublishedKey(id), now);
    }
  }

  lemma {:induction false} AttemptMarks(s: Setup, c0: CacheState, w: World, alerts: seq<Alert>, topic: string, eventId: string, i: nat,
                                        fault: Fault, now: real)
    requires i <= |alerts| && Lasting(c0, w.cache, now) && AllMarked(w.cache, alerts, i, now)
    ensures var (w', failed) := TryFrom(s, w, alerts, ProcessedKey(topic, eventId), i, fault, now);
            && Lasting(c0, w'.cache, now)
            && (!failed ==> AllMarked(w'.cache, alerts, |alerts|, now)
                            && Until(w'.cache, ProcessedKey(topic, eventId), now + IDEMPOTENCY_TTL))
    decreases |alerts| - i
  {
    hide Marked, PublishedKey, ProcessedKey, Published, Stored, Evicted, Until, Lasting, AllMarked;
    var pkey := ProcessedKey(topic, eventId);
    TryUnfolds(s, w, alerts, pkey, i, fault, now);
    if i == |alerts| {
      LastingFinish(c0, w.cache, alerts, topic, eventId, now);
    } else {
      LastingStep(c0, w.cache, alerts, i, now);
      var alert, key := alerts[i], PublishedKey(alerts[i].dedupeKey);
      var read := Evicted(w.cache, key, now);
      var sent := Published(w.bus, s.alertTopic, s.render(alert), alert.dedupeKey, alert.corr);
      var noted := Stored(read, key, Flag(true), Some(IDEMPOTENCY_TTL), now);
      if fault == AtRead(i) {
      } else if Marked(w.cache, key, now) {
        AttemptMarks(s, c0, World(w.bus, read), alerts, topic, eventId, i + 1, fault, now);
      } else if !(fault.AtPublish? && fault.i == i) && !(fault.AtMark? && fault.i == i) {
        AttemptMarks(s, c0, World(sent, noted), alerts, topic, eventId, i + 1, fault, now);
      }
    }
  }

  lemma NothingMarked(c: CacheState, alerts: seq<Alert>, now: real)
    ensures AllMarked(c, alerts, 0, now)
  {
  }

  lemma {:induction false} RetriesMark(s: Setup, c0: CacheState, w: World, alerts: seq<Alert>, topic: string, eventId: string, n: nat,
                                       faults: nat -> Fault, now: real)
    requires n < s.maxAttempts && Lasting(c0, w.cache, now)
    ensures var r := RetryFrom(s, w, alerts, ProcessedKey(topic, eventId), n, faults, now);
            && Lasting(c0, r.world.cache, now)
            && (r.ok ==> AllMarked(r.world.cache, alerts, |alerts|, now)
                         && Until(r.world.cache, ProcessedKey(topic, eventId), now + IDEMPOTENCY_TTL))
    decreases s.maxAttempts - n
  {
    hide TryFrom, Lasting, AllMarked, Until, ProcessedKey;
    NothingMarked(w.cache, alerts, now);
    AttemptMarks(s, c0, w, alerts, topic, eventId, 0, faults(n), now);
    RetryUnfolds(s, w, alerts, ProcessedKey(topic, eventId), n, faults, now);
    var (w', failed) := TryFrom(s, w, alerts, ProcessedKey(topic, eventId), 0, faults(n), now);
    if failed && n + 1 < s.maxAttempts {
      RetriesMark(s, c0, w', alerts, topic, eventId, n + 1, faults, now);
    }
  }

  lemma UnlockedKeeps(c: CacheState, lock: string, key: string, end: real)
    requires lock != key && Until(c, key, end)
    ensures Until(Without(c, lock), key, end)
  {
  }

  lemma LockedLasts(c: CacheState, locked: CacheState, now: real)
    requires forall other :: Marked(locked, PublishedKey(other), now) ==> Marked(c, PublishedKey(other), now)
    ensures Lasting(c, locked, now)
  {
    hide Marked, Until, PublishedKey;
  }

  /** What is known of alert `j` when an attempt went well. */
  lemma MarkOf(c0: CacheState, c: CacheState, alerts: seq<Alert>, j: nat, now: real)
    requires Lasting(c0, c, now) && AllMarked(c, alerts, |alerts|, now) && j < |alerts|
    requires !Marked(c0, PublishedKey(alerts[j].dedupeKey), now)
    ensures Until(c, PublishedKey(alerts[j].dedupeKey), now + IDEMPOTENCY_TTL)
  {
    hide Marked, Until, PublishedKey;
  }

  /** A processed event, and each of its alerts that was not marked before, is so for a day from now, to the instant. */
  lemma MarkersLast(s: Setup, w: World, breaker: Breaker, m: Message, topic: string, event: Alerting.Event,
                    faults: nat -> Fault, now: real, j: nat, t: real)
    requires s.maxAttempts >= 1 && Process(s, w, breaker, m, topic, event, faults, now).outcome == Processed
    ensures var cache := Process(s, w, breaker, m, topic, event, faults, now).world.cache;
            && (Marked(cache, ProcessedKey(topic, event.id), t) <==> t <= now + 86400.0)
            && (j < |event.alerts| && !Marked(w.cache, PublishedKey(event.alerts[j].dedupeKey), now) ==>
                  (Marked(cache, PublishedKey(event.alerts[j].dedupeKey), t) <==> t <= now + 86400.0))
  {
    hide Marked, PublishedKey, ProcessedKey, LockKey, Stored, Evicted, Claimed, Without, Admitted, Finished, RetryFrom, Completed,
         DeadLettered, Until, Lasting, AllMarked, IsLock, IsProcessed;
    var pkey, lock := ProcessedKey(topic, event.id), LockKey(topic, event.id);
    ProcessUnfolds(s, w, breaker, m, topic, event, faults, now);
    LockingKeeps(w.cache, topic, event.id, now);
    var locked := Claimed(Evicted(w.cache, pkey, now), lock, Flag(true), Some(LOCK_TTL), now).0;
    LockedLasts(w.cache, locked, now);
    RetriesMark(s, w.cache, World(w.bus, locked), event.alerts, topic, event.id, 0, faults, now);
    var cache := RetryFrom(s, World(w.bus, locked), event.alerts, pkey, 0, faults, now).world.cache;
    KeysApart(topic, event.id, "", "");
    UnlockedKeeps(cache, lock, pkey, now + IDEMPOTENCY_TTL);
    UntilReads(Without(cache, lock), pkey, now + IDEMPOTENCY_TTL, t);
    if j < |event.alerts| && !Marked(w.cache, PublishedKey(event.alerts[j].dedupeKey), now) {
      var key := PublishedKey(event.alerts[j].dedupeKey);
      KeysApart(topic, event.id, event.alerts[j].dedupeKey, "");
      MarkOf(w.cache, cache, event.alerts, j, now);
      UnlockedKeeps(cache, lock, key, now + IDEMPOTENCY_TTL);
      UntilReads(Without(cache, lock), key, now + IDEMPOTENCY_TTL, t);
    }
  }
}
