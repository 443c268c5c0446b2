/**
  One alerting worker: it takes messages from the bus, keeps duplicates out with markers and
  locks in the cache, and publishes the alerts of each event, retrying and dead-lettering on
  failure. Any cache or bus call inside the retried operation may fail, and a failed write may
  or may not have taken effect; the clock stands still during a poll.
 */
module Alerting {
  import opened Wrappers
  import opened Bus
  import opened Cache
  import opened Keys
  import opened Resilience
  import opened Rules

  const LOCK_TTL := 300.0
  const IDEMPOTENCY_TTL := 86400.0

  function ProcessedKey(topic: string, eventId: string): string {
    "alerting:processed:" + topic + ":" + eventId
  }

  function LockKey(topic: string, eventId: string): string {
    "alerting:lock:" + topic + ":" + eventId
  }

  function PublishedKey(dedupeKey: string): string {
    "alerting:published:" + dedupeKey
  }

  predicate IsLock(key: string) {
    "alerting:lock:" <= key
  }

  predicate IsProcessed(key: string) {
    "alerting:processed:" <= key
  }

  lemma KeysApart(topic: string, eventId: string, d1: string, d2: string)
    ensures IsProcessed(ProcessedKey(topic, eventId))
    ensures !IsProcessed(LockKey(topic, eventId)) && !IsProcessed(PublishedKey(d1))
    ensures IsLock(LockKey(topic, eventId))
    ensures !IsLock(ProcessedKey(topic, eventId)) && !IsLock(PublishedKey(d1))
    ensures PublishedKey(d1) != ProcessedKey(topic, eventId)
    ensures PublishedKey(d1) == PublishedKey(d2) ==> d1 == d2
  {
    var p := "alerting:published:";
    assert PublishedKey(d1)[9..][1] == 'u' && ProcessedKey(topic, eventId)[9..][1] == 'r';
    assert PublishedKey(d1)[9] == 'p' && ProcessedKey(topic, eventId)[9] == 'p' && LockKey(topic, eventId)[9] == 'l';
    assert "alerting:lock:"[9] == 'l' && "alerting:processed:"[9..][0] == 'p' && "alerting:processed:"[9..][1] == 'r';
    assert PublishedKey(d1)[|p|..] == d1 && PublishedKey(d2)[|p|..] == d2;
  }

  /** Under topics free of colons, an event has its own marker and its own lock. */
  lemma EventKeysTell(t1: string, id1: string, t2: string, id2: string)
    requires ':' !in t1 && ':' !in t2
    ensures ProcessedKey(t1, id1) == ProcessedKey(t2, id2) <==> t1 == t2 && id1 == id2
    ensures LockKey(t1, id1) == LockKey(t2, id2) <==> t1 == t2 && id1 == id2
  {
    var p, l, x1, x2 := "alerting:processed:", "alerting:lock:", t1 + ":" + id1, t2 + ":" + id2;
    assert ProcessedKey(t1, id1) == p + x1 && ProcessedKey(t2, id2) == p + x2;
    assert LockKey(t1, id1) == l + x1 && LockKey(t2, id2) == l + x2;
    SameSuffix(p, x1, x2);
    SameSuffix(l, x1, x2);
    if x1 == x2 {
      FirstColon(t1, t2, id1, id2);
    }
  }

  /** A valid event with the alerts the rules give for it. */
  datatype Event = Event(id: string, alerts: seq<Alert>)

  datatype Outcome = Processed | Duplicate | Dead

  datatype Counters = Counters(
    seen: int, processed: int, duplicates: int, published: int, retries: int, refused: int, deadLettered: int)

  // ---------------------------------------------------------------------------
  // What the bus and the cache keep
  // ---------------------------------------------------------------------------

  predicate Truthy(v: Value) {
    match v
    case Nothing => false
    case Flag(b) => b
    case Text(t) => t != ""
    case Rows(rows) => rows != []
  }

  predicate Marked(c: CacheState, key: string, now: real) {
    Truthy(Seen(c, key, now))
  }

  /** Only the alert topic's queues change, ids seen there stay seen, and nothing is settled. */
  ghost predicate BusGrew(b: BusState, b': BusState, alertTopic: string) {
    && b'.inFlight == b.inFlight
    && b'.dlqs == b.dlqs
    && b.Seen(alertTopic) <= b'.Seen(alertTopic)
    && (forall t | t != alertTopic :: b'.QueuesOf(t) == b.QueuesOf(t))
  }

  /** Markers stay set and no lock appears. */
  ghost predicate CacheGrew(c: CacheState, c': CacheState, now: real) {
    && (forall k :: Marked(c, k, now) ==> Marked(c', k, now))
    && (forall k | IsLock(k) && k in c'.store :: k in c.store)
  }

  /** No event is newly marked as processed but the one with this key. */
  ghost predicate OthersUnprocessed(c: CacheState, c': CacheState, pkey: string, now: real) {
    forall k | IsProcessed(k) && k != pkey :: Marked(c', k, now) ==> Marked(c, k, now)
  }

  lemma OthersTrans(c0: CacheState, c1: CacheState, c2: CacheState, pkey: string, now: real)
    requires OthersUnprocessed(c0, c1, pkey, now) && OthersUnprocessed(c1, c2, pkey, now)
    ensures OthersUnprocessed(c0, c2, pkey, now)
  {
    hide Marked, IsProcessed;
  }

  /** Marking one key leaves the events of other keys as they were. */
  lemma OthersAfterMark(c: CacheState, c': CacheState, key: string, pkey: string, now: real)
    requires !IsProcessed(key) || key == pkey
    requires forall k :: Marked(c', k, now) ==> k == key || Marked(c, k, now)
    ensures OthersUnprocessed(c, c', pkey, now)
  {
    hide Marked, IsProcessed;
  }

  /** A published marker tells the truth. */
  ghost predicate MarksTrue(c: CacheState, b: BusState, alertTopic: string, now: real) {
    forall id :: Marked(c, PublishedKey(id), now) ==> id in b.Seen(alertTopic)
  }

  predicate AllSent(b: BusState, alertTopic: string, alerts: seq<Alert>, n: nat)
    requires n <= |alerts|
  {
    forall i | 0 <= i < n :: alerts[i].dedupeKey in b.Seen(alertTopic)
  }

  predicate KeysOk(alerts: seq<Alert>) {
    forall i | 0 <= i < |alerts| :: alerts[i].dedupeKey != ""
  }

  lemma BusGrewTrans(b0: BusState, b1: BusState, b2: BusState, alertTopic: string)
    requires BusGrew(b0, b1, alertTopic) && BusGrew(b1, b2, alertTopic)
    ensures BusGrew(b0, b2, alertTopic)
  {
  }

  lemma CacheGrewTrans(c0: CacheState, c1: CacheState, c2: CacheState, now: real)
    requires CacheGrew(c0, c1, now) && CacheGrew(c1, c2, now)
    ensures CacheGrew(c0, c2, now)
  {
    hide Marked;
  }

  lemma Unmoved(b: BusState, c: CacheState, alertTopic: string, now: real)
    ensures BusGrew(b, b, alertTopic) && CacheGrew(c, c, now)
  {
  }

  lemma PublishGrows(b: BusState, alertTopic: string, body: string, id: string, corr: Option<string>)
    ensures var b' := Published(b, alertTopic, body, id, corr);
            BusGrew(b, b', alertTopic) && id in b'.Seen(alertTopic)
  {
  }

  lemma GetGrows(c: CacheState, key: string, now: real)
    ensures CacheGrew(c, Evicted(c, key, now), now)
    ensures Marked(Evicted(c, key, now), key, now) <==> Marked(c, key, now)
    ensures forall k :: Marked(Evicted(c, key, now), k, now) <==> Marked(c, k, now)
  {
  }

  /** Setting a marker marks that key and no other. */
  lemma MarkGrows(c: CacheState, key: string, now: real)
    requires !IsLock(key)
    ensures var c' := Stored(c, key, Flag(true), Some(IDEMPOTENCY_TTL), now);
            CacheGrew(c, c', now) && forall k :: Marked(c', k, now) <==> k == key || Marked(c, k, now)
  {
  }

  lemma SentGrows(b: BusState, b': BusState, alertTopic: string, alerts: seq<Alert>, n: nat)
    requires n <= |alerts| && AllSent(b, alertTopic, alerts, n) && BusGrew(b, b', alertTopic)
    ensures AllSent(b', alertTopic, alerts, n)
  {
  }

  lemma MarksStayTrue(c: CacheState, b: BusState, b': BusState, alertTopic: string, now: real)
    requires MarksTrue(c, b, alertTopic, now) && BusGrew(b, b', alertTopic)
    ensures MarksTrue(c, b', alertTopic, now)
  {
  }

  lemma MarksAfterGet(c: CacheState, b: BusState, alertTopic: string, key: string, now: real)
    requires MarksTrue(c, b, alertTopic, now)
    ensures MarksTrue(Evicted(c, key, now), b, alertTopic, now)
  {
    GetGrows(c, key, now);
  }

  lemma MarksAfterPublished(c: CacheState, b: BusState, alertTopic: string, id: string, now: real)
    requires MarksTrue(c, b, alertTopic, now) && id in b.Seen(alertTopic)
    ensures MarksTrue(Stored(c, PublishedKey(id), Flag(true), Some(IDEMPOTENCY_TTL), now), b, alertTopic, now)
  {
    KeysApart("", "", id, id);
    MarkGrows(c, PublishedKey(id), now);
    forall d | Marked(Stored(c, PublishedKey(id), Flag(true), Some(IDEMPOTENCY_TTL), now), PublishedKey(d), now)
      ensures d in b.Seen(alertTopic)
    {
      KeysApart("", "", d, id);
    }
  }

  lemma MarksAfterProcessed(c: CacheState, b: BusState, alertTopic: string, topic: string, eventId: string, now: real)
    requires MarksTrue(c, b, alertTopic, now)
    ensures MarksTrue(Stored(c, ProcessedKey(topic, eventId), Flag(true), Some(IDEMPOTENCY_TTL), now), b, alertTopic, now)
  {
    KeysApart(topic, eventId, "", "");
    MarkGrows(c, ProcessedKey(topic, eventId), now);
    forall d | Marked(Stored(c, ProcessedKey(topic, eventId), Flag(true), Some(IDEMPOTENCY_TTL), now), PublishedKey(d), now)
      ensures d in b.Seen(alertTopic)
    {
      KeysApart(topic, eventId, d, d);
    }
  }

  // ---------------------------------------------------------------------------
  // Progress of the retried operation
  // ---------------------------------------------------------------------------

  /** From one state to a later one, inside the retried operation. */
  ghost predicate Advanced(b: BusState, c: CacheState, b': BusState, c': CacheState, alertTopic: string, now: real) {
    BusGrew(b, b', alertTopic) && CacheGrew(c, c', now) && MarksTrue(c', b', alertTopic, now)
  }

  lemma AdvancedTrans(b0: BusState, c0: CacheState, b1: BusState, c1: CacheState, b2: BusState, c2: CacheState,
                      alertTopic: string, now: real)
    requires Advanced(b0, c0, b1, c1, alertTopic, now) && Advanced(b1, c1, b2, c2, alertTopic, now)
    ensures Advanced(b0, c0, b2, c2, alertTopic, now)
  {
    hide Marked;
    BusGrewTrans(b0, b1, b2, alertTopic);
    CacheGrewTrans(c0, c1, c2, now);
  }

  lemma AdvancedByGet(b: BusState, c: CacheState, key: string, alertTopic: string, now: real)
    requires MarksTrue(c, b, alertTopic, now)
    ensures Advanced(b, c, b, Evicted(c, key, now), alertTopic, now)
    ensures forall k :: Marked(Evicted(c, key, now), k, now) <==> Marked(c, k, now)
  {
    GetGrows(c, key, now);
    MarksAfterGet(c, b, alertTopic, key, now);
    Unmoved(b, c, alertTopic, now);
  }

  lemma AdvancedByPublish(b: BusState, c: CacheState, alertTopic: string, body: string, id: string, corr: Option<string>, now: real)
    requires MarksTrue(c, b, alertTopic, now)
    ensures Advanced(b, c, Published(b, alertTopic, body, id, corr), c, alertTopic, now)
    ensures id in Published(b, alertTopic, body, id, corr).Seen(alertTopic)
  {
    PublishGrows(b, alertTopic, body, id, corr);
    MarksStayTrue(c, b, Published(b, alertTopic, body, id, corr), alertTopic, now);
    Unmoved(b, c, alertTopic, now);
  }

  lemma AdvancedByMark(b: BusState, c: CacheState, alertTopic: string, id: string, now: real)
    requires MarksTrue(c, b, alertTopic, now) && id in b.Seen(alertTopic)
    ensures var c' := Stored(c, PublishedKey(id), Flag(true), Some(IDEMPOTENCY_TTL), now);
            && Advanced(b, c, b, c', alertTopic, now)
            && (forall k :: Marked(c', k, now) <==> k == PublishedKey(id) || Marked(c, k, now))
  {
    KeysApart("", "", id, id);
    MarkGrows(c, PublishedKey(id), now);
    MarksAfterPublished(c, b, alertTopic, id, now);
    Unmoved(b, c, alertTopic, now);
  }

  lemma AdvancedByProcessed(b: BusState, c: CacheState, alertTopic: string, topic: string, eventId: string, now: real)
    requires MarksTrue(c, b, alertTopic, now)
    ensures var c' := Stored(c, ProcessedKey(topic, eventId), Flag(true), Some(IDEMPOTENCY_TTL), now);
            && Advanced(b, c, b, c', alertTopic, now)
            && Marked(c', ProcessedKey(topic, eventId), now)
            && (forall k :: Marked(c', k, now) <==> k == ProcessedKey(topic, eventId) || Marked(c, k, now))
  {
    KeysApart(topic, eventId, "", "");
    MarkGrows(c, ProcessedKey(topic, eventId), now);
    MarksAfterProcessed(c, b, alertTopic, topic, eventId, now);
    Unmoved(b, c, alertTopic, now);
  }

  /** None of the ids handed to the bus had been marked as published when the attempt began. */
  predicate NoneMarked(c: CacheState, sent: seq<string>, now: real) {
    forall i | 0 <= i < |sent| :: !Marked(c, PublishedKey(sent[i]), now)
  }

  lemma NoneMarkedEarlier(c: CacheState, c': CacheState, id: string, now: real)
    requires CacheGrew(c, c', now) && !Marked(c', PublishedKey(id), now)
    ensures !Marked(c, PublishedKey(id), now)
  {
  }

  // ---------------------------------------------------------------------------
  // The state of one attempt after `i` alerts
  // ---------------------------------------------------------------------------

  ghost predicate Under(b: BusState, c: CacheState, b': BusState, c': CacheState, alertTopic: string, alerts: seq<Alert>, i: nat,
                        sent: seq<string>, pkey: string, now: real)
  {
    && i <= |alerts|
    && Advanced(b, c, b', c', alertTopic, now)
    && AllSent(b', alertTopic, alerts, i)
    && NoneMarked(c, sent, now)
    && OthersUnprocessed(c, c', pkey, now)
    && (Marked(c', pkey, now) ==> Marked(c, pkey, now))
  }

  lemma UnderStart(b: BusState, c: CacheState, alertTopic: string, alerts: seq<Alert>, pkey: string, now: real)
    requires MarksTrue(c, b, alertTopic, now)
    ensures Under(b, c, b, c, alertTopic, alerts, 0, [], pkey, now)
  {
    Unmoved(b, c, alertTopic, now);
  }

  lemma UnderRead(b: BusState, c: CacheState, b': BusState, c': CacheState, alertTopic: string, alerts: seq<Alert>, i: nat,
                  sent: seq<string>, pkey: string, now: real)
    requires Under(b, c, b', c', alertTopic, alerts, i, sent, pkey, now) && i < |alerts|
    ensures var key := PublishedKey(alerts[i].dedupeKey);
            var c'' := Evicted(c', key, now);
            && Under(b, c, b', c'', alertTopic, alerts, i, sent, pkey, now)
            && (Marked(c', key, now) ==> Under(b, c, b', c'', alertTopic, alerts, i + 1, sent, pkey, now))
            && (Marked(c'', key, now) <==> Marked(c', key, now))
  {
    hide Marked, CacheGrew, BusGrew, NoneMarked, OthersUnprocessed;
    var key := PublishedKey(alerts[i].dedupeKey);
    AdvancedByGet(b', c', key, alertTopic, now);
    OthersAfterMark(c', Evicted(c', key, now), pkey, pkey, now);
    OthersTrans(c, c', Evicted(c', key, now), pkey, now);
    AdvancedTrans(b, c, b', c', b', Evicted(c', key, now), alertTopic, now);
  }

  lemma UnderPublish(b: BusState, c: CacheState, b': BusState, c': CacheState, alertTopic: string, alerts: seq<Alert>, i: nat,
                     sent: seq<string>, pkey: string, now: real, body: string)
    requires Under(b, c, b', c', alertTopic, alerts, i, sent, pkey, now) && i < |alerts|
    requires !Marked(c', PublishedKey(alerts[i].dedupeKey), now)
    ensures var id := alerts[i].dedupeKey;
            var b'' := Published(b', alertTopic, body, id, alerts[i].corr);
            && Under(b, c, b', c', alertTopic, alerts, i, sent + [id], pkey, now)
            && Under(b, c, b'', c', alertTopic, alerts, i + 1, sent + [id], pkey, now)
  {
    hide Marked, BusGrew, OthersUnprocessed;
    var id := alerts[i].dedupeKey;
    var b'' := Published(b', alertTopic, body, id, alerts[i].corr);
    AdvancedByPublish(b', c', alertTopic, body, id, alerts[i].corr, now);
    AdvancedTrans(b, c, b', c', b'', c', alertTopic, now);
    SentGrows(b', b'', alertTopic, alerts, i);
    NoneMarkedEarlier(c, c', id, now);
  }

  lemma UnderMark(b: BusState, c: CacheState, b': BusState, c': CacheState, alertTopic: string, alerts: seq<Alert>, i: nat,
                  sent: seq<string>, topic: string, eventId: string, now: real)
    requires Under(b, c, b', c', alertTopic, alerts, i + 1, sent, ProcessedKey(topic, eventId), now)
    ensures var c'' := Stored(c', PublishedKey(alerts[i].dedupeKey), Flag(true), Some(IDEMPOTENCY_TTL), now);
            Under(b, c, b', c'', alertTopic, alerts, i + 1, sent, ProcessedKey(topic, eventId), now)
  {
    hide Marked, CacheGrew, BusGrew, NoneMarked, ProcessedKey, OthersUnprocessed, IsProcessed;
    var id := alerts[i].dedupeKey;
    KeysApart(topic, eventId, id, id);
    AdvancedByMark(b', c', alertTopic, id, now);
    OthersAfterMark(c', Stored(c', PublishedKey(id), Flag(true), Some(IDEMPOTENCY_TTL), now), PublishedKey(id),
                    ProcessedKey(topic, eventId), now);
    OthersTrans(c, c', Stored(c', PublishedKey(id), Flag(true), Some(IDEMPOTENCY_TTL), now), ProcessedKey(topic, eventId), now);
    AdvancedTrans(b, c, b', c', b', Stored(c', PublishedKey(id), Flag(true), Some(IDEMPOTENCY_TTL), now), alertTopic, now);
  }

  /** What one attempt may leave behind, and what a successful one must. */
  ghost predicate Attempted(b: BusState, c: CacheState, b': BusState, c': CacheState, alertTopic: string, alerts: seq<Alert>,
                            sent: seq<string>, pkey: string, failed: bool, now: real)
  {
    && Advanced(b, c, b', c', alertTopic, now)
    && NoneMarked(c, sent, now)
    && OthersUnprocessed(c, c', pkey, now)
    && (Marked(c', pkey, now) ==> Marked(c, pkey, now) || AllSent(b', alertTopic, alerts, |alerts|))
    && (!failed ==> Marked(c', pkey, now) && AllSent(b', alertTopic, alerts, |alerts|))
  }

  lemma AttemptFails(b: BusState, c: CacheState, b': BusState, c': CacheState, alertTopic: string, alerts: seq<Alert>, i: nat,
                     sent: seq<string>, pkey: string, now: real)
    requires Under(b, c, b', c', alertTopic, alerts, i, sent, pkey, now)
    ensures Attempted(b, c, b', c', alertTopic, alerts, sent, pkey, true, now)
  {
  }

  lemma AttemptEnds(b: BusState, c: CacheState, b': BusState, c': CacheState, alertTopic: string, alerts: seq<Alert>,
                    sent: seq<string>, topic: string, eventId: string, now: real)
    requires Under(b, c, b', c', alertTopic, alerts, |alerts|, sent, ProcessedKey(topic, eventId), now)
    ensures var c'' := Stored(c', ProcessedKey(topic, eventId), Flag(true), Some(IDEMPOTENCY_TTL), now);
            forall failed :: Attempted(b, c, b', c'', alertTopic, alerts, sent, ProcessedKey(topic, eventId), failed, now)
  {
    hide Marked, CacheGrew, BusGrew, NoneMarked, ProcessedKey, OthersUnprocessed, IsProcessed;
    AdvancedByProcessed(b', c', alertTopic, topic, eventId, now);
    OthersAfterMark(c', Stored(c', ProcessedKey(topic, eventId), Flag(true), Some(IDEMPOTENCY_TTL), now),
                    ProcessedKey(topic, eventId), ProcessedKey(topic, eventId), now);
    OthersTrans(c, c', Stored(c', ProcessedKey(topic, eventId), Flag(true), Some(IDEMPOTENCY_TTL), now), ProcessedKey(topic, eventId), now);
    AdvancedTrans(b, c, b', c', b', Stored(c', ProcessedKey(topic, eventId), Flag(true), Some(IDEMPOTENCY_TTL), now), alertTopic, now);
  }
}
