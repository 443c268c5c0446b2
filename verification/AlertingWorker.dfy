/** The alerting worker itself. */
module AlertingWorker {
  import opened Wrappers
  import opened Bus
  import opened Cache
  import opened Resilience
  import opened Rules
  import opened Alerting
  import Spec = AlertingSpec

  // ---------------------------------------------------------------------------
  // Attempts
  // ---------------------------------------------------------------------------

  /** The cache as attempt `j` found it, and the ids attempt `j` handed to the bus. */
  datatype AttemptLog = AttemptLog(before: CacheState, sent: seq<string>)

  /** The cache as attempt `j` left it. */
  function Left(log: seq<AttemptLog>, last: CacheState, j: nat): CacheState {
    if j + 1 < |log| then log[j + 1].before else last
  }

  /** Attempts resume: what was marked when an attempt began it does not send, and marks survive from one attempt to the next. */
  ghost predicate Resumes(log: seq<AttemptLog>, last: CacheState, now: real) {
    && (forall j | 0 <= j < |log| :: NoneMarked(log[j].before, log[j].sent, now))
    && (forall j | 0 <= j < |log| :: CacheGrew(log[j].before, Left(log, last, j), now))
  }

  lemma {:induction false} MarksSurvive(log: seq<AttemptLog>, last: CacheState, now: real, i: nat, j: nat, key: string)
    requires Resumes(log, last, now) && i <= j < |log| && Marked(log[i].before, key, now)
    ensures Marked(log[j].before, key, now)
    decreases j - i
  {
    hide Marked, NoneMarked;
    if i < j {
      assert CacheGrew(log[i].before, Left(log, last, i), now);
      MarksSurvive(log, last, now, i + 1, j, key);
    }
  }

  /** Once an alert is marked as published, no later attempt hands it to the bus again. */
  lemma NeverResent(log: seq<AttemptLog>, last: CacheState, now: real, i: nat, j: nat, id: string)
    requires Resumes(log, last, now) && i <= j < |log| && Marked(log[i].before, PublishedKey(id), now)
    ensures id !in log[j].sent
  {
    hide Marked, CacheGrew;
    MarksSurvive(log, last, now, i, j, PublishedKey(id));
    assert NoneMarked(log[j].before, log[j].sent, now);
  }

  lemma ResumesMore(log: seq<AttemptLog>, before: CacheState, sent: seq<string>, after: CacheState, now: real)
    requires Resumes(log, before, now) && NoneMarked(before, sent, now) && CacheGrew(before, after, now)
    ensures Resumes(log + [AttemptLog(before, sent)], after, now)
  {
    hide NoneMarked, CacheGrew;
    var longer := log + [AttemptLog(before, sent)];
    forall j | 0 <= j < |longer|
      ensures CacheGrew(longer[j].before, Left(longer, after, j), now)
    {
      if j < |log| {
        assert longer[j] == log[j];
        assert Left(longer, after, j) == Left(log, before, j);
      }
    }
  }

  /** What the retried operation as a whole leaves behind. */
  ghost predicate Tried(b: BusState, c: CacheState, b': BusState, c': CacheState, alertTopic: string, alerts: seq<Alert>,
                        log: seq<AttemptLog>, pkey: string, ok: bool, now: real)
  {
    && Advanced(b, c, b', c', alertTopic, now)
    && Resumes(log, c', now)
    && (log != [] ==> log[0].before == c)
    && OthersUnprocessed(c, c', pkey, now)
    && (Marked(c', pkey, now) ==> Marked(c, pkey, now) || AllSent(b', alertTopic, alerts, |alerts|))
    && (ok ==> Marked(c', pkey, now) && AllSent(b', alertTopic, alerts, |alerts|))
  }

  lemma TriedStart(b: BusState, c: CacheState, alertTopic: string, alerts: seq<Alert>, pkey: string, now: real)
    requires MarksTrue(c, b, alertTopic, now)
    ensures Tried(b, c, b, c, alertTopic, alerts, [], pkey, false, now)
  {
    Unmoved(b, c, alertTopic, now);
  }

  lemma TriedMarksTrue(b: BusState, c: CacheState, b1: BusState, c1: CacheState, alertTopic: string,
                       alerts: seq<Alert>, log: seq<AttemptLog>, pkey: string, ok: bool, now: real)
    requires Tried(b, c, b1, c1, alertTopic, alerts, log, pkey, ok, now)
    ensures MarksTrue(c1, b1, alertTopic, now)
  {
  }

  lemma TriedAgain(b: BusState, c: CacheState, b1: BusState, c1: CacheState, b2: BusState, c2: CacheState, alertTopic: string,
                   alerts: seq<Alert>, log: seq<AttemptLog>, sent: seq<string>, pkey: string, failed: bool, now: real)
    requires Tried(b, c, b1, c1, alertTopic, alerts, log, pkey, false, now)
    requires Attempted(b1, c1, b2, c2, alertTopic, alerts, sent, pkey, failed, now)
    requires log == [] ==> c1 == c
    ensures Tried(b, c, b2, c2, alertTopic, alerts, log + [AttemptLog(c1, sent)], pkey, !failed, now)
  {
    hide Marked, NoneMarked, CacheGrew, MarksTrue, Resumes, BusGrew, OthersUnprocessed;
    AdvancedTrans(b, c, b1, c1, b2, c2, alertTopic, now);
    OthersTrans(c, c1, c2, pkey, now);
    ResumesMore(log, c1, sent, c2, now);
    if AllSent(b1, alertTopic, alerts, |alerts|) {
      SentGrows(b1, b2, alertTopic, alerts, |alerts|);
    }
  }

  // ---------------------------------------------------------------------------
  // Settling
  // ---------------------------------------------------------------------------

  /** Message `m` was settled once: taken out of flight, and put on its dead-letter queue if that is how it ended. */
  ghost predicate SettledOnce(b: BusState, b': BusState, m: Message, dead: bool, alertTopic: string) {
    && b'.inFlight == b.inFlight - {m}
    && b'.dlqs == (if dead then DeadLettered(b, m).dlqs else b.dlqs)
    && b.Seen(alertTopic) <= b'.Seen(alertTopic)
    && (forall t | t != alertTopic :: b'.QueuesOf(t) == b.QueuesOf(t))
  }

  lemma SettleAfter(b: BusState, b1: BusState, m: Message, alertTopic: string)
    requires BusGrew(b, b1, alertTopic)
    ensures SettledOnce(b, Completed(b1, m), m, false, alertTopic)
    ensures SettledOnce(b, DeadLettered(b1, m), m, true, alertTopic)
    ensures Completed(b1, m).Seen(alertTopic) == b1.Seen(alertTopic) == DeadLettered(b1, m).Seen(alertTopic)
  {
  }

  /** How each outcome is counted. */
  predicate Counted(m: Counters, m': Counters, outcome: Outcome, alerts: int) {
    && m'.seen == m.seen
    && m'.processed == m.processed + (if outcome == Processed then 1 else 0)
    && m'.duplicates == m.duplicates + (if outcome == Duplicate then 1 else 0)
    && m'.deadLettered == m.deadLettered + (if outcome == Dead then 1 else 0)
    && m'.published == m.published + (if outcome == Processed then alerts else 0)
  }

  /** What processing one event does, given what its markers and its lock said before. */
  ghost predicate Handled(b: BusState, c: CacheState, b': BusState, c': CacheState, m: Message, topic: string, event: Event,
                          outcome: Outcome, alertTopic: string, now: real)
  {
    var pkey := ProcessedKey(topic, event.id);
    && SettledOnce(b, b', m, outcome == Dead, alertTopic)
    && CacheGrew(c, c', now)
    && MarksTrue(c', b', alertTopic, now)
    && (outcome == Duplicate <==> Marked(c, pkey, now) || Present(c, LockKey(topic, event.id), now))
    && (outcome == Processed ==> Marked(c', pkey, now))
    && OthersUnprocessed(c, c', pkey, now)
    && (Marked(c', pkey, now) && !Marked(c, pkey, now) ==> AllSent(b', alertTopic, event.alerts, |event.alerts|))
  }

  lemma SentIsSeen(b: BusState, b': BusState, alertTopic: string, alerts: seq<Alert>)
    requires b'.Seen(alertTopic) == b.Seen(alertTopic)
    ensures AllSent(b', alertTopic, alerts, |alerts|) <==> AllSent(b, alertTopic, alerts, |alerts|)
  {
  }

  /** A duplicate: found processed, or found locked. */
  lemma HandledDuplicate(b: BusState, c: CacheState, c': CacheState, m: Message, topic: string, event: Event,
                         alertTopic: string, now: real)
    requires MarksTrue(c, b, alertTopic, now)
    requires Marked(c, ProcessedKey(topic, event.id), now) || Present(c, LockKey(topic, event.id), now)
    requires CacheGrew(c, c', now) && forall k :: Marked(c', k, now) <==> Marked(c, k, now)
    ensures Handled(b, c, Completed(b, m), c', m, topic, event, Duplicate, alertTopic, now)
  {
    hide Marked;
    Unmoved(b, c, alertTopic, now);
    SettleAfter(b, b, m, alertTopic);
  }

  /** Claiming the lock of an event and giving it back leaves no lock and no marker behind. */
  lemma ClaimGrows(c: CacheState, lockKey: string, now: real)
    requires IsLock(lockKey) && !Present(c, lockKey, now)
    ensures var c1 := Claimed(c, lockKey, Flag(true), Some(LOCK_TTL), now).0;
            && (forall k | k != lockKey :: Marked(c1, k, now) <==> Marked(c, k, now))
            && (forall k | IsLock(k) && k in c1.store && k != lockKey :: k in c.store)
            && !Marked(c, lockKey, now)
  {
  }

  lemma ReleaseGrows(c: CacheState, lockKey: string, now: real)
    ensures var c' := Without(c, lockKey);
            && (forall k | k != lockKey :: Marked(c', k, now) <==> Marked(c, k, now))
            && (forall k | k in c'.store :: k in c.store && k != lockKey)
  {
  }

  lemma ClaimKeepsMarks(c: CacheState, b: BusState, lockKey: string, alertTopic: string, now: real)
    requires IsLock(lockKey) && !Present(c, lockKey, now) && MarksTrue(c, b, alertTopic, now)
    ensures MarksTrue(Claimed(c, lockKey, Flag(true), Some(LOCK_TTL), now).0, b, alertTopic, now)
  {
    var c1 := Claimed(c, lockKey, Flag(true), Some(LOCK_TTL), now).0;
    ClaimGrows(c, lockKey, now);
    hide Marked;
    forall id | Marked(c1, PublishedKey(id), now)
      ensures id in b.Seen(alertTopic)
    {
      KeysApart("", "", id, id);
    }
  }

  lemma OthersHandled(c: CacheState, c1: CacheState, c2: CacheState, c': CacheState, lockKey: string, pkey: string, now: real)
    requires !IsProcessed(lockKey) && OthersUnprocessed(c1, c2, pkey, now)
    requires forall k | k != lockKey :: Marked(c1, k, now) <==> Marked(c, k, now)
    requires forall k | k != lockKey :: Marked(c', k, now) <==> Marked(c2, k, now)
    ensures OthersUnprocessed(c, c', pkey, now)
  {
    hide Marked, IsProcessed;
  }

  /** From the claim to the release, whatever the retried operation did in between. */
  lemma HandledLocked(b: BusState, c: CacheState, b2: BusState, c2: CacheState, b3: BusState, m: Message, topic: string, event: Event,
                      log: seq<AttemptLog>, ok: bool, alertTopic: string, now: real)
    requires !Marked(c, ProcessedKey(topic, event.id), now) && !Present(c, LockKey(topic, event.id), now)
    requires var c1 := Claimed(c, LockKey(topic, event.id), Flag(true), Some(LOCK_TTL), now).0;
             Tried(b, c1, b2, c2, alertTopic, event.alerts, log, ProcessedKey(topic, event.id), ok, now)
    requires b3 == if ok then Completed(b2, m) else DeadLettered(b2, m)
    ensures var c' := Without(c2, LockKey(topic, event.id));
            Handled(b, c, b3, c', m, topic, event, if ok then Processed else Dead, alertTopic, now)
  {
    var lockKey, pkey := LockKey(topic, event.id), ProcessedKey(topic, event.id);
    var c1 := Claimed(c, lockKey, Flag(true), Some(LOCK_TTL), now).0;
    var c' := Without(c2, lockKey);
    KeysApart(topic, event.id, "", "");
    ClaimGrows(c, lockKey, now);
    ReleaseGrows(c2, lockKey, now);
    OthersHandled(c, c1, c2, c', lockKey, pkey, now);
    SettleAfter(b, b2, m, alertTopic);
    SentIsSeen(b2, b3, alertTopic, event.alerts);
    LockedGrows(c, c1, c2, c', lockKey, now);
    LockedTrue(c2, c', b2, b3, lockKey, alertTopic, now);
    hide Marked, Resumes, ProcessedKey, LockKey, IsLock, Claimed, Without, Present, AllSent, SettledOnce, BusGrew,
         OthersUnprocessed, IsProcessed, CacheGrew, MarksTrue;
  }

  lemma LockedGrows(c: CacheState, c1: CacheState, c2: CacheState, c': CacheState, lockKey: string, now: real)
    requires CacheGrew(c1, c2, now) && !Marked(c, lockKey, now)
    requires forall k | k != lockKey :: Marked(c1, k, now) <==> Marked(c, k, now)
    requires forall k | k != lockKey :: Marked(c', k, now) <==> Marked(c2, k, now)
    requires forall k | IsLock(k) && k in c1.store && k != lockKey :: k in c.store
    requires forall k | k in c'.store :: k in c2.store && k != lockKey
    ensures CacheGrew(c, c', now)
  {
    hide Marked, IsLock;
  }

  lemma LockedTrue(c2: CacheState, c': CacheState, b2: BusState, b3: BusState, lockKey: string, alertTopic: string, now: real)
    requires MarksTrue(c2, b2, alertTopic, now) && b3.Seen(alertTopic) == b2.Seen(alertTopic) && IsLock(lockKey)
    requires forall k | k != lockKey :: Marked(c', k, now) <==> Marked(c2, k, now)
    ensures MarksTrue(c', b3, alertTopic, now)
  {
    hide Marked, IsLock, BusState.Seen;
    forall id | Marked(c', PublishedKey(id), now)
      ensures id in b3.Seen(alertTopic)
    {
      KeysApart("", "", id, id);
    }
  }

  /** The first read may evict an expired marker, which changes nothing that matters. */
  lemma HandledAfterGet(b: BusState, c: CacheState, b': BusState, c': CacheState, m: Message, topic: string, event: Alerting.Event,
                        outcome: Outcome, alertTopic: string, now: real)
    requires Handled(b, Evicted(c, ProcessedKey(topic, event.id), now), b', c', m, topic, event, outcome, alertTopic, now)
    ensures Handled(b, c, b', c', m, topic, event, outcome, alertTopic, now)
  {
    var c1 := Evicted(c, ProcessedKey(topic, event.id), now);
    GetGrows(c, ProcessedKey(topic, event.id), now);
    CacheGrewTrans(c, c1, c', now);
    OthersAfterMark(c, c1, ProcessedKey(topic, event.id), ProcessedKey(topic, event.id), now);
    OthersTrans(c, c1, c', ProcessedKey(topic, event.id), now);
    EvictionIsInvisible(c, ProcessedKey(topic, event.id), now, LockKey(topic, event.id), now);
    hide Marked, SettledOnce, CacheGrew, MarksTrue, AllSent, Present, ProcessedKey, LockKey, OthersUnprocessed, IsProcessed;
  }

  lemma ClaimTells(c: CacheState, key: string, now: real)
    ensures Claimed(c, key, Flag(true), Some(LOCK_TTL), now).1 <==> !Present(c, key, now)
    ensures Present(c, key, now) ==> Claimed(c, key, Flag(true), Some(LOCK_TTL), now).0 == Evicted(c, key, now) == c
  {
  }

  lemma CountedAs(m: Counters, retries: int, refused: int, n: int)
    ensures Counted(m, m.(duplicates := m.duplicates + 1), Duplicate, n)
    ensures Counted(m, m.(retries := retries, refused := refused, deadLettered := m.deadLettered + 1), Dead, n)
    ensures Counted(m, m.(retries := retries, processed := m.processed + 1, published := m.published + n), Processed, n)
  {
  }

  // ---------------------------------------------------------------------------
  // A whole poll
  // ---------------------------------------------------------------------------

  /** The dead-letter queues after these messages were settled in order. */
  function DlqsAfter(b: BusState, received: seq<Message>, outcomes: seq<Outcome>): BusState
    requires |received| == |outcomes|
  {
    if received == [] then b
    else
      var n := |received| - 1;
      var before := DlqsAfter(b, received[..n], outcomes[..n]);
      if outcomes[n] == Dead then DeadLettered(before, received[n]) else before
  }

  function Count(outcomes: seq<Outcome>, o: Outcome): (n: int)
    ensures 0 <= n <= |outcomes|
  {
    if outcomes == [] then 0
    else Count(outcomes[..|outcomes| - 1], o) + if outcomes[|outcomes| - 1] == o then 1 else 0
  }

  lemma {:induction false} OutcomesAddUp(outcomes: seq<Outcome>)
    ensures Count(outcomes, Processed) + Count(outcomes, Duplicate) + Count(outcomes, Dead) == |outcomes|
  {
    if outcomes != [] {
      OutcomesAddUp(outcomes[..|outcomes| - 1]);
    }
  }

  /** What settling messages adds up to, the set of messages in flight apart. */
  ghost predicate Tallied(b: BusState, c: CacheState, m: Counters, b': BusState, c': CacheState, m': Counters,
                          received: seq<Message>, outcomes: seq<Outcome>, alertTopic: string, now: real)
  {
    && |received| == |outcomes|
    && b'.dlqs == DlqsAfter(b, received, outcomes).dlqs
    && CacheGrew(c, c', now)
    && MarksTrue(c', b', alertTopic, now)
    && m'.seen == m.seen + |received|
    && m'.processed == m.processed + Count(outcomes, Processed)
    && m'.duplicates == m.duplicates + Count(outcomes, Duplicate)
    && m'.deadLettered == m.deadLettered + Count(outcomes, Dead)
  }

  function Members(ms: seq<Message>): set<Message> {
    set x | x in ms
  }

  /** What a poll does: each message it received leaves flight for good, and the dead ones are queued in order. */
  ghost predicate Polled(b: BusState, c: CacheState, m: Counters, b': BusState, c': CacheState, m': Counters,
                         received: seq<Message>, outcomes: seq<Outcome>, alertTopic: string, now: real)
  {
    && Tallied(b, c, m, b', c', m', received, outcomes, alertTopic, now)
    && b'.inFlight == b.inFlight - Members(received)
  }

  /** In the middle of a batch: `waiting` is still in flight and will be settled next. */
  ghost predicate Waiting(b: BusState, c: CacheState, m: Counters, b': BusState, c': CacheState, m': Counters,
                          received: seq<Message>, outcomes: seq<Outcome>, waiting: seq<Message>, alertTopic: string, now: real)
  {
    && Tallied(b, c, m, b', c', m', received, outcomes, alertTopic, now)
    && b'.inFlight - Members(waiting) == b.inFlight - Members(received) - Members(waiting)
  }

  lemma PolledStart(b: BusState, c: CacheState, m: Counters, alertTopic: string, now: real)
    requires MarksTrue(c, b, alertTopic, now)
    ensures Polled(b, c, m, b, c, m, [], [], alertTopic, now)
  {
    Unmoved(b, c, alertTopic, now);
  }

  lemma TalliedMore(b: BusState, c: CacheState, m: Counters, b1: BusState, c1: CacheState, m1: Counters,
                    b2: BusState, c2: CacheState, m2: Counters, received: seq<Message>, outcomes: seq<Outcome>,
                    x: Message, o: Outcome, n: int, alertTopic: string, now: real)
    requires Tallied(b, c, m, b1, c1, m1, received, outcomes, alertTopic, now)
    requires SettledOnce(b1, b2, x, o == Dead, alertTopic) && CacheGrew(c1, c2, now) && MarksTrue(c2, b2, alertTopic, now)
    requires Counted(m1.(seen := m1.seen + 1), m2, o, n)
    ensures Tallied(b, c, m, b2, c2, m2, received + [x], outcomes + [o], alertTopic, now)
  {
    hide CacheGrew, MarksTrue, DeadLettered;
    CacheGrewTrans(c, c1, c2, now);
    var k := |received|;
    assert (received + [x])[..k] == received && (outcomes + [o])[..k] == outcomes;
    SameDlqs(DlqsAfter(b, received, outcomes), b1, x);
  }

  lemma SameDlqs(b: BusState, b': BusState, x: Message)
    requires b.dlqs == b'.dlqs
    ensures DeadLettered(b, x).dlqs == DeadLettered(b', x).dlqs
  {
  }

  lemma PolledTakes(b: BusState, c: CacheState, m: Counters, b1: BusState, c1: CacheState, m1: Counters,
                    received: seq<Message>, outcomes: seq<Outcome>, topic: string, sub: string, max: int, alertTopic: string, now: real)
    requires Polled(b, c, m, b1, c1, m1, received, outcomes, alertTopic, now)
    ensures var (b2, messages) := Received(b1, topic, sub, max);
            Waiting(b, c, m, b2, c1, m1, received, outcomes, messages[0..], alertTopic, now)
  {
    var (b2, messages) := Received(b1, topic, sub, max);
    assert messages[0..] == messages;
    ReceiveOnlyTakes(b1, topic, sub, max, alertTopic);
    hide CacheGrew, Marked, DlqsAfter, Received, BusState.Seen;
    assert Tallied(b, c, m, b2, c1, m1, received, outcomes, alertTopic, now);
    hide Tallied;
    assert (b1.inFlight + Members(messages)) - Members(messages) == b1.inFlight - Members(messages);
  }

  /** The messages a receive would take from a queue. */
  function Offered(b: BusState, topic: string, sub: string, max: int): seq<Message> {
    b.Queue(topic, sub)[..Taken(b.Queue(topic, sub), max)]
  }

  /** After `i` of two topics were polled: what was received so far, and that the queues still to be polled are as they were. */
  ghost predicate Took(b: BusState, b': BusState, received: seq<Message>, i: nat, t0: string, t1: string, sub: string, max: int) {
    && (i <= 1 ==> b'.QueuesOf(t1) == b.QueuesOf(t1))
    && (i == 0 ==> b'.QueuesOf(t0) == b.QueuesOf(t0))
    && received == (if i == 0 then [] else Offered(b, t0, sub, max)) + (if i <= 1 then [] else Offered(b, t1, sub, max))
  }

  lemma TookStart(b: BusState, t0: string, t1: string, sub: string, max: int)
    ensures Took(b, b, [], 0, t0, t1, sub, max)
  {
  }

  lemma TookNext(b: BusState, b1: BusState, b3: BusState, received: seq<Message>, i: nat, t0: string, t1: string, sub: string, max: int)
    requires t0 != t1 && i < 2 && Took(b, b1, received, i, t0, t1, sub, max)
    requires var t := if i == 0 then t0 else t1;
             i == 0 ==> b3.QueuesOf(t1) == Received(b1, t, sub, max).0.QueuesOf(t1)
    ensures var t := if i == 0 then t0 else t1;
            Took(b, b3, received + Received(b1, t, sub, max).1, i + 1, t0, t1, sub, max)
  {
    var t := if i == 0 then t0 else t1;
    assert b1.Queue(t, sub) == b.Queue(t, sub);
  }

  lemma TookAll(b: BusState, b': BusState, received: seq<Message>, t0: string, t1: string, sub: string, max: int)
    requires Took(b, b', received, 2, t0, t1, sub, max)
    ensures received == Offered(b, t0, sub, max) + Offered(b, t1, sub, max)
  {
  }

  lemma SettlingKeepsQueues(b: BusState, b': BusState, m: Message, dead: bool, alertTopic: string, t: string)
    requires SettledOnce(b, b', m, dead, alertTopic) && t != alertTopic
    ensures b'.QueuesOf(t) == b.QueuesOf(t)
  {
  }

  lemma ReceiveOnlyTakes(b: BusState, topic: string, sub: string, max: int, t: string)
    ensures var (b', messages) := Received(b, topic, sub, max);
            b'.inFlight == b.inFlight + Members(messages) && b'.Seen(t) == b.Seen(t) && b'.dlqs == b.dlqs
  {
  }

  lemma WaitingMarks(b: BusState, c: CacheState, m: Counters, b1: BusState, c1: CacheState, m1: Counters,
                     received: seq<Message>, outcomes: seq<Outcome>, waiting: seq<Message>, alertTopic: string, now: real)
    requires Waiting(b, c, m, b1, c1, m1, received, outcomes, waiting, alertTopic, now)
    ensures MarksTrue(c1, b1, alertTopic, now)
  {
  }

  lemma WaitingLess(b: BusState, c: CacheState, m: Counters, b1: BusState, c1: CacheState, m1: Counters,
                    b2: BusState, c2: CacheState, m2: Counters, received: seq<Message>, outcomes: seq<Outcome>,
                    waiting: seq<Message>, o: Outcome, n: int, alertTopic: string, now: real)
    requires waiting != [] && Waiting(b, c, m, b1, c1, m1, received, outcomes, waiting, alertTopic, now)
    requires SettledOnce(b1, b2, waiting[0], o == Dead, alertTopic) && CacheGrew(c1, c2, now) && MarksTrue(c2, b2, alertTopic, now)
    requires Counted(m1.(seen := m1.seen + 1), m2, o, n)
    ensures Waiting(b, c, m, b2, c2, m2, received + [waiting[0]], outcomes + [o], waiting[1..], alertTopic, now)
  {
    hide Tallied, CacheGrew, MarksTrue, Counted;
    TalliedMore(b, c, m, b1, c1, m1, b2, c2, m2, received, outcomes, waiting[0], o, n, alertTopic, now);
    assert Members(waiting) == Members(waiting[1..]) + {waiting[0]} by {
      assert waiting == [waiting[0]] + waiting[1..];
    }
    assert Members(received + [waiting[0]]) == Members(received) + {waiting[0]};
    OneSettled(b.inFlight, b1.inFlight, Members(received), Members(waiting[1..]), waiting[0]);
  }

  lemma OneSettled(all: set<Message>, now: set<Message>, received: set<Message>, rest: set<Message>, x: Message)
    requires now - (rest + {x}) == all - received - (rest + {x})
    ensures (now - {x}) - rest == all - (received + {x}) - rest
  {
    assert (now - {x}) - rest == now - (rest + {x});
    assert all - (received + {x}) - rest == all - received - (rest + {x});
  }

  lemma WaitingOver(b: BusState, c: CacheState, m: Counters, b1: BusState, c1: CacheState, m1: Counters,
                    received: seq<Message>, outcomes: seq<Outcome>, alertTopic: string, now: real)
    requires Waiting(b, c, m, b1, c1, m1, received, outcomes, [], alertTopic, now)
    ensures Polled(b, c, m, b1, c1, m1, received, outcomes, alertTopic, now)
  {
    hide Tallied;
    assert Members([]) == {};
    assert b1.inFlight - {} == b1.inFlight && b.inFlight - Members(received) - {} == b.inFlight - Members(received);
  }

  lemma PolledAddsUp(b: BusState, c: CacheState, m: Counters, b1: BusState, c1: CacheState, m1: Counters,
                     received: seq<Message>, outcomes: seq<Outcome>, alertTopic: string, now: real)
    requires Polled(b, c, m, b1, c1, m1, received, outcomes, alertTopic, now)
    ensures m1.seen - m.seen == m1.processed - m.processed + m1.duplicates - m.duplicates + m1.deadLettered - m.deadLettered
  {
    OutcomesAddUp(outcomes);
  }

  lemma MarksAfterDead(c: CacheState, b: BusState, x: Message, alertTopic: string, now: real)
    requires MarksTrue(c, b, alertTopic, now)
    ensures MarksTrue(c, DeadLettered(b, x), alertTopic, now)
  {
    hide Marked;
    assert DeadLettered(b, x).Seen(alertTopic) == b.Seen(alertTopic);
  }

  // ---------------------------------------------------------------------------
  // What became of each message of a poll
  // ---------------------------------------------------------------------------

  datatype Moment = Moment(bus: BusState, cache: CacheState, breaker: Breaker)
  {
    function World(): Spec.World {
      Spec.World(bus, cache)
    }
  }

  /** One message, the event in it if there is a valid one, its faults, what handling it came to, and the state before and after. */
  datatype Treatment = Treatment(
    m: Message, event: Option<Alerting.Event>, faults: nat -> Spec.Fault, effect: Spec.Effect, before: Moment, after: Moment)
  {
    function Outcome(): Outcome {
      effect.outcome
    }
  }

  /** The message ended as its event, the breaker and the faults decide. */
  ghost predicate Judged(s: Spec.Setup, x: Treatment, now: real) {
    && x.event == Spec.EventIn(s, x.m)
    && x.after == Moment(x.effect.world.bus, x.effect.world.cache, x.effect.breaker)
    && match x.event
       case None => x.effect.outcome == Dead && !x.effect.refused && x.effect.attempts == 0 && x.after.breaker == x.before.breaker
       case Some(e) => Spec.Decided(s, x.before.World(), x.before.breaker, x.m.topic, e, x.faults, x.effect, now)
  }

  lemma JudgedAs(s: Spec.Setup, x: Treatment, now: real)
    requires s.maxAttempts >= 1 && x.event == Spec.EventIn(s, x.m)
    requires x.effect == Spec.Handle(s, x.before.World(), x.before.breaker, x.m, x.faults, now)
    requires x.after == Moment(x.effect.world.bus, x.effect.world.cache, x.effect.breaker)
    ensures Judged(s, x, now)
  {
    hide Spec.Process, Spec.Decided;
    if x.event.Some? {
      Spec.ProcessIsDecided(s, x.before.World(), x.before.breaker, x.m, x.m.topic, x.event.value, x.faults, now);
    }
  }

  /** How many of the messages the breaker refused, and how many attempts beyond the first were made. */
  function RefusedIn(log: seq<Treatment>): nat {
    if log == [] then 0 else RefusedIn(log[..|log| - 1]) + if log[|log| - 1].effect.refused then 1 else 0
  }

  function RetriesIn(log: seq<Treatment>): nat {
    if log == [] then 0
    else
      var n := log[|log| - 1].effect.attempts;
      RetriesIn(log[..|log| - 1]) + if n > 1 then n - 1 else 0
  }

  lemma CountsMore(log: seq<Treatment>, x: Treatment)
    ensures RefusedIn(log + [x]) == RefusedIn(log) + if x.effect.refused then 1 else 0
    ensures RetriesIn(log + [x]) == RetriesIn(log) + if x.effect.attempts > 1 then x.effect.attempts - 1 else 0
  {
    assert (log + [x])[..|log|] == log;
  }

  /** A message without a valid event is dead-lettered and marks nothing; any other is handled as its event demands. */
  ghost predicate Treated(x: Treatment, alertTopic: string, now: real) {
    match x.event
    case None =>
      x.Outcome() == Dead && x.after.bus == DeadLettered(x.before.bus, x.m) && x.after.cache == x.before.cache
    case Some(e) =>
      Handled(x.before.bus, x.before.cache, x.after.bus, x.after.cache, x.m, x.m.topic, e, x.Outcome(), alertTopic, now)
  }

  /** The messages were treated one after the other, from cache `c` to cache `c'`. */
  ghost predicate Traced(c: CacheState, log: seq<Treatment>, c': CacheState, b': BusState, alertTopic: string, now: real) {
    if log == [] then c' == c
    else
      var last := log[|log| - 1];
      && Treated(last, alertTopic, now)
      && last.after.cache == c'
      && last.after.bus.Seen(alertTopic) <= b'.Seen(alertTopic)
      && Traced(c, log[..|log| - 1], last.before.cache, b', alertTopic, now)
  }

  /** The log is about these messages and outcomes. */
  predicate Matches(log: seq<Treatment>, received: seq<Message>, outcomes: seq<Outcome>) {
    |log| == |received| == |outcomes| && forall k | 0 <= k < |log| :: log[k].m == received[k] && log[k].Outcome() == outcomes[k]
  }

  lemma {:induction false} TracedLater(c: CacheState, log: seq<Treatment>, c': CacheState, b: BusState, b': BusState,
                                       alertTopic: string, now: real)
    requires Traced(c, log, c', b, alertTopic, now) && b.Seen(alertTopic) <= b'.Seen(alertTopic)
    ensures Traced(c, log, c', b', alertTopic, now)
  {
    hide Treated, BusState.Seen;
    if log != [] {
      TracedLater(c, log[..|log| - 1], log[|log| - 1].before.cache, b, b', alertTopic, now);
    }
  }

  lemma TracedMore(c: CacheState, log: seq<Treatment>, x: Treatment, alertTopic: string, now: real)
    requires Traced(c, log, x.before.cache, x.before.bus, alertTopic, now) && Treated(x, alertTopic, now)
    ensures Traced(c, log + [x], x.after.cache, x.after.bus, alertTopic, now)
  {
    TreatedGrows(x, alertTopic, now);
    TracedLater(c, log, x.before.cache, x.before.bus, x.after.bus, alertTopic, now);
    hide Treated, BusState.Seen;
    assert (log + [x])[..|log|] == log;
  }

  lemma TreatedGrows(x: Treatment, alertTopic: string, now: real)
    requires Treated(x, alertTopic, now)
    ensures x.before.bus.Seen(alertTopic) <= x.after.bus.Seen(alertTopic)
  {
    hide CacheGrew, MarksTrue, Marked, OthersUnprocessed, AllSent;
  }

  /** Message number `k` of the log held the event of this key, and all its alerts are on the bus. */
  ghost predicate Explains(log: seq<Treatment>, k: int, key: string, b: BusState, alertTopic: string) {
    && 0 <= k < |log| && log[k].event.Some?
    && ProcessedKey(log[k].m.topic, log[k].event.value.id) == key
    && AllSent(b, alertTopic, log[k].event.value.alerts, |log[k].event.value.alerts|)
  }

  /** A processed marker set during a poll is the marker of a message of that poll, and all that event's alerts are out. */
  lemma {:induction false} MarkersExplained(c: CacheState, log: seq<Treatment>, c': CacheState, b': BusState, key: string,
                                            alertTopic: string, now: real) returns (k: nat)
    requires Traced(c, log, c', b', alertTopic, now)
    requires IsProcessed(key) && Marked(c', key, now) && !Marked(c, key, now)
    ensures Explains(log, k, key, b', alertTopic)
  {
    var n := |log| - 1;
    var last := log[n];
    hide Marked, BusState.Seen, IsProcessed, Treated;
    if Marked(last.before.cache, key, now) {
      k := MarkersExplained(c, log[..n], last.before.cache, b', key, alertTopic, now);
    } else {
      k := n;
      NewlyMarked(last, key, alertTopic, now);
      SentStays(last, b', alertTopic);
    }
  }

  lemma NewlyMarked(x: Treatment, key: string, alertTopic: string, now: real)
    requires Treated(x, alertTopic, now) && IsProcessed(key)
    requires Marked(x.after.cache, key, now) && !Marked(x.before.cache, key, now)
    ensures x.event.Some? && ProcessedKey(x.m.topic, x.event.value.id) == key
    ensures AllSent(x.after.bus, alertTopic, x.event.value.alerts, |x.event.value.alerts|)
  {
    hide Marked, CacheGrew, MarksTrue, SettledOnce, IsProcessed, AllSent;
  }

  lemma SentStays(x: Treatment, b': BusState, alertTopic: string)
    requires x.after.bus.Seen(alertTopic) <= b'.Seen(alertTopic) && x.event.Some?
    requires AllSent(x.after.bus, alertTopic, x.event.value.alerts, |x.event.value.alerts|)
    ensures AllSent(b', alertTopic, x.event.value.alerts, |x.event.value.alerts|)
  {
  }

  lemma MatchesMore(log: seq<Treatment>, received: seq<Message>, outcomes: seq<Outcome>, x: Treatment)
    requires Matches(log, received, outcomes)
    ensures Matches(log + [x], received + [x.m], outcomes + [x.Outcome()])
  {
  }

  lemma ReadsMark(c: CacheState, key: string, now: real)
    ensures Marked(c, key, now) <==> Truthy(Seen(c, key, now))
  {
  }

  lemma KeyGiven(alerts: seq<Alert>, i: nat)
    requires KeysOk(alerts) && i < |alerts|
    ensures alerts[i].dedupeKey != ""
  {
  }

  // ---------------------------------------------------------------------------
  // The worker
  // ---------------------------------------------------------------------------

  class AlertingService {
    const bus: InMemoryBus
    const cache: InMemoryCache
    const breaker: CircuitBreaker
    const signalTopic: string
    const insightTopic: string
    const alertTopic: string
    const subscription: string
    const maxAttempts: int
    /** Validation and rules: the event in a message body of a topic, or nothing when the body is invalid. */
    const parse: (string, string) -> Option<Alerting.Event>
    const render: Alert -> string
    var metrics: Counters

    constructor (bus: InMemoryBus, cache: InMemoryCache, breaker: CircuitBreaker, signalTopic: string, insightTopic: string,
                 alertTopic: string, subscription: string, maxProcessingAttempts: int,
                 parse: (string, string) -> Option<Alerting.Event>, render: Alert -> string)
      ensures this.bus == bus && this.cache == cache && this.breaker == breaker
      ensures Setting() == Spec.Setup(signalTopic, insightTopic, alertTopic, subscription,
                                      if maxProcessingAttempts > 1 then maxProcessingAttempts else 1, breaker.limits, parse, render)
      ensures metrics == Counters(0, 0, 0, 0, 0, 0, 0)
    {
      this.bus, this.cache, this.breaker := bus, cache, breaker;
      this.signalTopic, this.insightTopic, this.alertTopic, this.subscription := signalTopic, insightTopic, alertTopic, subscription;
      this.maxAttempts := if maxProcessingAttempts > 1 then maxProcessingAttempts else 1;
      this.parse, this.render := parse, render;
      metrics := Counters(0, 0, 0, 0, 0, 0, 0);
    }

    function Setting(): Spec.Setup {
      Spec.Setup(signalTopic, insightTopic, alertTopic, subscription, maxAttempts, breaker.limits, parse, render)
    }

    function World(): Spec.World
      reads bus, cache
    {
      Spec.World(bus.State(), cache.State())
    }

    /** One attempt at publishing an event's alerts and marking it processed. */
    method Operation(event: Alerting.Event, topic: string, fault: Spec.Fault, now: real) returns (failed: bool, ghost sent: seq<string>)
      requires KeysOk(event.alerts) && MarksTrue(cache.State(), bus.State(), alertTopic, now)
      modifies bus, cache
      ensures (World(), failed)
              == Spec.TryFrom(Setting(), old(World()), event.alerts, ProcessedKey(topic, event.id), 0, fault, now)
      ensures Attempted(old(bus.State()), old(cache.State()), bus.State(), cache.State(), alertTopic, event.alerts, sent,
                        ProcessedKey(topic, event.id), failed, now)
    {
      hide *;
      ghost var s := Setting();
      SettingIs();
      ghost var b, c := bus.State(), cache.State();
      var alerts := event.alerts;
      var pkey := ProcessedKey(topic, event.id);
      sent := [];
      UnderStart(b, c, alertTopic, alerts, pkey, now);
      var i := 0;
      while i < |alerts|
        invariant 0 <= i <= |alerts|
        invariant Under(b, c, bus.State(), cache.State(), alertTopic, alerts, i, sent, pkey, now)
        invariant Spec.TryFrom(s, Spec.World(b, c), alerts, pkey, 0, fault, now)
                  == Spec.TryFrom(s, Spec.World(bus.State(), cache.State()), alerts, pkey, i, fault, now)
      {
        var alert := alerts[i];
        Spec.TryUnfolds(s, Spec.World(bus.State(), cache.State()), alerts, pkey, i, fault, now);
        if fault == Spec.AtRead(i) {
          AttemptFails(b, c, bus.State(), cache.State(), alertTopic, alerts, i, sent, pkey, now);
          SettingIs();
          return true, sent;
        }
        UnderRead(b, c, bus.State(), cache.State(), alertTopic, alerts, i, sent, pkey, now);
        ReadsMark(cache.State(), PublishedKey(alert.dedupeKey), now);
        var mark := cache.Get(PublishedKey(alert.dedupeKey), now);
        if Truthy(mark) {
          i := i + 1;
          continue;
        }
        KeyGiven(alerts, i);
        UnderPublish(b, c, bus.State(), cache.State(), alertTopic, alerts, i, sent, pkey, now, render(alert));
        sent := sent + [alert.dedupeKey];
        if fault != Spec.AtPublish(i, false) {
          bus.Publish(alertTopic, render(alert), Some(alert.dedupeKey), alert.corr, "");
        }
        if fault == Spec.AtPublish(i, false) || fault == Spec.AtPublish(i, true) {
          AttemptFails(b, c, bus.State(), cache.State(), alertTopic, alerts, if fault.sent then i + 1 else i, sent, pkey, now);
          SettingIs();
          return true, sent;
        }
        UnderMark(b, c, bus.State(), cache.State(), alertTopic, alerts, i, sent, topic, event.id, now);
        if fault != Spec.AtMark(i, false) {
          cache.Set(PublishedKey(alert.dedupeKey), Flag(true), Some(IDEMPOTENCY_TTL), now);
        }
        i := i + 1;
        if fault == Spec.AtMark(i - 1, false) || fault == Spec.AtMark(i - 1, true) {
          AttemptFails(b, c, bus.State(), cache.State(), alertTopic, alerts, i, sent, pkey, now);
          SettingIs();
          return true, sent;
        }
      }
      AttemptFails(b, c, bus.State(), cache.State(), alertTopic, alerts, i, sent, pkey, now);
      AttemptEnds(b, c, bus.State(), cache.State(), alertTopic, alerts, sent, topic, event.id, now);
      Spec.TryUnfolds(s, Spec.World(bus.State(), cache.State()), alerts, pkey, i, fault, now);
      if fault != Spec.AtFinish(false) {
        cache.Set(pkey, Flag(true), Some(IDEMPOTENCY_TTL), now);
      }
      failed := fault.AtFinish?;
      SettingIs();
    }

    lemma SettingIs()
      ensures World() == Spec.World(bus.State(), cache.State())
      ensures var s := Setting();
              && s.alertTopic == alertTopic && s.render == render && s.maxAttempts == maxAttempts && s.limits == breaker.limits
              && s.signalTopic == signalTopic && s.insightTopic == insightTopic && s.subscription == subscription
              && s.parse == parse
    {
    }

    /** Attempts until one succeeds or as many as allowed have failed; attempt number `n` meets fault `faults(n)`. */
    method ProcessWithRetry(event: Alerting.Event, topic: string, faults: nat -> Spec.Fault, now: real)
      returns (ok: bool, ghost log: seq<AttemptLog>)
      requires KeysOk(event.alerts) && MarksTrue(cache.State(), bus.State(), alertTopic, now) && maxAttempts >= 1
      modifies this, bus, cache
      ensures Spec.Retried(World(), |log|, ok)
              == Spec.RetryFrom(Setting(), old(World()), event.alerts, ProcessedKey(topic, event.id), 0, faults, now)
      ensures Tried(old(bus.State()), old(cache.State()), bus.State(), cache.State(), alertTopic, event.alerts, log,
                    ProcessedKey(topic, event.id), ok, now)
      ensures 1 <= |log| <= maxAttempts && (!ok ==> |log| == maxAttempts)
      ensures metrics == old(metrics).(retries := old(metrics).retries + |log| - 1)
    {
      hide *;
      ghost var s := Setting();
      SettingIs();
      ghost var b, c := bus.State(), cache.State();
      ghost var pkey := ProcessedKey(topic, event.id);
      var attempts := 0;
      log, ok := [], false;
      TriedStart(b, c, alertTopic, event.alerts, ProcessedKey(topic, event.id), now);
      while !ok && attempts < maxAttempts
        invariant attempts == |log| <= maxAttempts
        invariant Tried(b, c, bus.State(), cache.State(), alertTopic, event.alerts, log, ProcessedKey(topic, event.id), ok, now)
        invariant log == [] ==> cache.State() == c && !ok
        invariant metrics == old(metrics).(retries := old(metrics).retries + if |log| > 0 then |log| - 1 else 0)
        invariant var all := Spec.RetryFrom(s, Spec.World(b, c), event.alerts, pkey, 0, faults, now);
                  all == if ok || attempts == maxAttempts then Spec.Retried(Spec.World(bus.State(), cache.State()), attempts, ok)
                         else Spec.RetryFrom(s, Spec.World(bus.State(), cache.State()), event.alerts, pkey, attempts, faults, now)
        decreases maxAttempts - attempts
      {
        ghost var w1 := World();
        SettingIs();
        Spec.RetryUnfolds(s, w1, event.alerts, pkey, attempts, faults, now);
        attempts := attempts + 1;
        if attempts > 1 {
          metrics := metrics.(retries := metrics.retries + 1);
        }
        ghost var b1, c1 := bus.State(), cache.State();
        TriedMarksTrue(b, c, b1, c1, alertTopic, event.alerts, log, ProcessedKey(topic, event.id), ok, now);
        SettingIs();
        ghost var sent;
        var failed;
        failed, sent := Operation(event, topic, faults(attempts - 1), now);
        SettingIs();
        TriedAgain(b, c, b1, c1, bus.State(), cache.State(), alertTopic, event.alerts, log, sent, ProcessedKey(topic, event.id), failed, now);
        log := log + [AttemptLog(c1, sent)];
        ok := !failed;
      }
      SettingIs();
    }

    method DeadLetter(message: Message)
      modifies this, bus
      ensures bus.State() == DeadLettered(old(bus.State()), message)
      ensures metrics == old(metrics).(deadLettered := old(metrics).deadLettered + 1)
    {
      metrics := metrics.(deadLettered := metrics.deadLettered + 1);
      bus.DeadLetter(message);
    }

    /** Handles one valid event: suppresses it, processes it, or dead-letters it. */
    method ProcessEvent(message: Message, topic: string, event: Alerting.Event, faults: nat -> Spec.Fault, now: real)
      returns (outcome: Outcome, ghost effect: Spec.Effect)
      requires KeysOk(event.alerts) && MarksTrue(cache.State(), bus.State(), alertTopic, now) && maxAttempts >= 1
      modifies this, bus, cache, breaker
      ensures effect == Spec.Process(Setting(), old(World()), old(breaker.Value()), message, topic, event, faults, now)
      ensures effect.world == World() && effect.breaker == breaker.Value() && effect.outcome == outcome
      ensures metrics == Spec.Charged(old(metrics), effect, |event.alerts|)
      ensures Handled(old(bus.State()), old(cache.State()), bus.State(), cache.State(), message, topic, event, outcome, alertTopic, now)
      ensures Counted(old(metrics), metrics, outcome, |event.alerts|)
    {
      hide *;
      ghost var s, w, breaker0 := Setting(), World(), breaker.Value();
      SettingIs();
      ghost var b, c := bus.State(), cache.State();
      ghost var before := metrics;
      var pkey, lockKey := ProcessedKey(topic, event.id), LockKey(topic, event.id);
      Spec.ProcessUnfolds(s, w, breaker0, message, topic, event, faults, now);
      effect := Spec.Process(s, w, breaker0, message, topic, event, faults, now);
      Spec.ChargedIs(before, effect, |event.alerts|);
      ReadsMark(c, pkey, now);
      GetGrows(c, pkey, now);
      MarksAfterGet(c, b, alertTopic, pkey, now);
      var done := cache.Get(pkey, now);
      ghost var c1 := cache.State();
      Unmoved(b, c1, alertTopic, now);
      ClaimTells(c1, lockKey, now);
      if Truthy(done) {
        metrics := metrics.(duplicates := metrics.duplicates + 1);
        bus.Complete(message);
        HandledDuplicate(b, c1, c1, message, topic, event, alertTopic, now);
        HandledAfterGet(b, c, bus.State(), c1, message, topic, event, Duplicate, alertTopic, now);
        CountedAs(before, 0, 0, |event.alerts|);
        SettingIs();
        return Duplicate, effect;
      }
      var claimed := cache.SetIfAbsent(lockKey, Flag(true), Some(LOCK_TTL), now);
      if !claimed {
        metrics := metrics.(duplicates := metrics.duplicates + 1);
        bus.Complete(message);
        HandledDuplicate(b, c1, c1, message, topic, event, alertTopic, now);
        HandledAfterGet(b, c, bus.State(), c1, message, topic, event, Duplicate, alertTopic, now);
        CountedAs(before, 0, 0, |event.alerts|);
        SettingIs();
        return Duplicate, effect;
      }
      ghost var c2 := cache.State();
      KeysApart(topic, event.id, "", "");
      ClaimKeepsMarks(c1, b, lockKey, alertTopic, now);
      TriedStart(b, c2, alertTopic, event.alerts, pkey, now);
      ghost var log: seq<AttemptLog> := [];
      var ok := false;
      var how := breaker.Admit(now);
      SettingIs();
      if how == Rejected {
        metrics := metrics.(refused := metrics.refused + 1);
      } else {
        ok, log := ProcessWithRetry(event, topic, faults, now);
        breaker.Finish(how, ok, now);
      }
      SettingIs();
      ghost var b3, c3 := bus.State(), cache.State();
      cache.Delete(lockKey);
      CountedAs(before, metrics.retries, metrics.refused, |event.alerts|);
      if ok {
        metrics := metrics.(processed := metrics.processed + 1, published := metrics.published + |event.alerts|);
        bus.Complete(message);
        outcome := Processed;
      } else {
        DeadLetter(message);
        outcome := Dead;
      }
      SettingIs();
      HandledLocked(b, c1, b3, c3, bus.State(), message, topic, event, log, ok, alertTopic, now);
      HandledAfterGet(b, c, bus.State(), cache.State(), message, topic, event, outcome, alertTopic, now);
    }

    /** The rule engine gives every alert a key. */
    ghost predicate Ready() {
      maxAttempts >= 1 && forall t, body :: parse(t, body).Some? ==> KeysOk(parse(t, body).value.alerts)
    }

    /**
      A message without a valid event is dead-lettered; any other is a duplicate exactly when it is
      marked or locked, processed exactly when the breaker admits a call and some attempt meets no
      fault, and a marker set means that all its alerts are out.
     */
    method HandleMessage(message: Message, faults: nat -> Spec.Fault, now: real) returns (outcome: Outcome, ghost x: Treatment)
      requires Ready() && MarksTrue(cache.State(), bus.State(), alertTopic, now)
      modifies this, bus, cache, breaker
      ensures x.m == message && x.faults == faults && x.event == Spec.EventIn(Setting(), message) && x.Outcome() == outcome
      ensures x.event
              == if message.topic == signalTopic || message.topic == insightTopic then parse(message.topic, message.body) else None
      ensures x.before == old(Moment(bus.State(), cache.State(), breaker.Value()))
      ensures x.after == Moment(bus.State(), cache.State(), breaker.Value())
      ensures x.effect == Spec.Handle(Setting(), x.before.World(), x.before.breaker, message, faults, now)
      ensures Judged(Setting(), x, now) && Treated(x, alertTopic, now)
      ensures metrics == Spec.Charged(old(metrics), x.effect, Spec.AlertCount(Setting(), message))
      ensures SettledOnce(old(bus.State()), bus.State(), message, outcome == Dead, alertTopic)
      ensures CacheGrew(old(cache.State()), cache.State(), now) && MarksTrue(cache.State(), bus.State(), alertTopic, now)
      ensures Counted(old(metrics), metrics, outcome, Spec.AlertCount(Setting(), message))
    {
      ghost var b, c := bus.State(), cache.State();
      ghost var s, before := Setting(), Moment(bus.State(), cache.State(), breaker.Value());
      var parsed := if message.topic == signalTopic || message.topic == insightTopic then parse(message.topic, message.body) else None;
      assert parsed == Spec.EventIn(s, message);
      ghost var effect;
      if parsed.None? {
        hide SettledOnce, MarksTrue, CacheGrew, BusGrew, DeadLettered, Judged;
        Unmoved(b, c, alertTopic, now);
        SettleAfter(b, b, message, alertTopic);
        MarksAfterDead(c, b, message, alertTopic, now);
        DeadLetter(message);
        outcome, effect := Dead, Spec.Handle(s, before.World(), before.breaker, message, faults, now);
      } else {
        hide SettledOnce, MarksTrue, CacheGrew, Counted, KeysOk, Marked, AllSent, OthersUnprocessed, Spec.Process, Spec.Charged, Judged;
        outcome, effect := ProcessEvent(message, message.topic, parsed.value, faults, now);
      }
      x := Treatment(message, parsed, faults, effect, before, Moment(bus.State(), cache.State(), breaker.Value()));
      JudgedAs(s, x, now);
    }

    ghost function Whole(): Spec.AlertState
      reads this, bus, cache, breaker
    {
      Spec.AlertState(World(), breaker.Value(), metrics)
    }

    lemma WholeIs()
      ensures Whole() == Spec.AlertState(Spec.World(bus.State(), cache.State()), breaker.Value(), metrics)
    {
    }

    /**
      Takes up to `maxMessages` from each topic and settles every one of them; attempt `n` at message
      `k` of the poll meets fault `script(k, n)`.
     */
    method PollOnce(maxMessages: int, script: (nat, nat) -> Spec.Fault, now: real)
      returns (total: nat, ghost received: seq<Message>, ghost outcomes: seq<Outcome>, ghost log: seq<Treatment>)
      requires Ready() && MarksTrue(cache.State(), bus.State(), alertTopic, now)
      modifies this, bus, cache, breaker
      ensures Whole() == Spec.Polled(Setting(), old(Whole()), maxMessages, script, now)
      ensures Polled(old(bus.State()), old(cache.State()), old(metrics), bus.State(), cache.State(), metrics, received, outcomes, alertTopic, now)
      ensures Matches(log, received, outcomes)
      ensures forall k | 0 <= k < |log| :: JudgedAt(Setting(), log, k, script, now)
      ensures metrics.refused == old(metrics).refused + RefusedIn(log) && metrics.retries == old(metrics).retries + RetriesIn(log)
      ensures Traced(old(cache.State()), log, cache.State(), bus.State(), alertTopic, now)
      ensures forall key | IsProcessed(key) && Marked(cache.State(), key, now) && !Marked(old(cache.State()), key, now) ::
                exists k :: Explains(log, k, key, bus.State(), alertTopic)
      ensures total == |received|
      ensures signalTopic != insightTopic && alertTopic != insightTopic ==>
                received == Offered(old(bus.State()), signalTopic, subscription, maxMessages)
                            + Offered(old(bus.State()), insightTopic, subscription, maxMessages)
      ensures metrics.seen - old(metrics).seen
              == metrics.processed - old(metrics).processed + metrics.duplicates - old(metrics).duplicates
                 + metrics.deadLettered - old(metrics).deadLettered
    {
      hide *;
      ghost var s, st := Setting(), Whole();
      SettingIs();
      WholeIs();
      ghost var b, c, m := bus.State(), cache.State(), metrics;
      total, received, outcomes, log := 0, [], [], [];
      LoggedNothing(s, m, c, b, script, alertTopic, now);
      PolledStart(b, c, m, alertTopic, now);
      ghost var apart := signalTopic != insightTopic && alertTopic != insightTopic;
      TookStart(b, signalTopic, insightTopic, subscription, maxMessages);
      ReadyMeans();
      PolledToStart(s, st, maxMessages, script, now);
      var topics := [signalTopic, insightTopic];
      for i := 0 to 2
        invariant apart ==> Took(b, bus.State(), received, i, signalTopic, insightTopic, subscription, maxMessages)
        invariant Polled(b, c, m, bus.State(), cache.State(), metrics, received, outcomes, alertTopic, now)
        invariant total == |received|
        invariant PolledTo(s, st, i, Whole(), total, maxMessages, script, now)
        invariant Logged(s, log, received, outcomes, m, metrics, c, cache.State(), bus.State(), script, alertTopic, now)
      {
        ghost var b1, before := bus.State(), Whole();
        WholeIs();
        var messages := bus.Receive(topics[i], subscription, maxMessages);
        PolledTakes(b, c, m, b1, cache.State(), metrics, received, outcomes, topics[i], subscription, maxMessages, alertTopic, now);
        ReceiveOnlyTakes(b1, topics[i], subscription, maxMessages, alertTopic);
        LoggedLater(s, log, received, outcomes, m, metrics, c, cache.State(), b1, bus.State(), script, alertTopic, now);
        ghost var start := Whole();
        WholeIs();
        NoneHandled(s, start, total, script, now);
        var number := total;
        total := total + |messages|;
        ghost var first, queues1 := received, bus.State().QueuesOf(insightTopic);
        assert messages[..0] == [] && first + [] == first;
        for k := 0 to |messages|
          invariant received == first + messages[..k] && total == |first| + |messages| && number == |first| + k
          invariant Whole() == Spec.HandledAll(s, start, messages[..k], |first|, script, now)
          invariant apart ==> bus.State().QueuesOf(insightTopic) == queues1
          invariant Waiting(b, c, m, bus.State(), cache.State(), metrics, received, outcomes, messages[k..], alertTopic, now)
          invariant Logged(s, log, received, outcomes, m, metrics, c, cache.State(), bus.State(), script, alertTopic, now)
        {
          var message := messages[k];
          assert messages[k] == messages[k..][0] && messages[k..][1..] == messages[k + 1..];
          ghost var b2, c2, m2 := bus.State(), cache.State(), metrics;
          WholeIs();
          WaitingMarks(b, c, m, b2, c2, m2, received, outcomes, messages[k..], alertTopic, now);
          metrics := metrics.(seen := metrics.seen + 1);
          var outcome;
          ghost var x;
          outcome, x := HandleMessage(message, Spec.FaultsOf(script, number), now);
          WholeIs();
          MomentIs(s, x, now);
          OneHandled(s, start, messages, k, |first|, script, x, m2, now);
          WaitingLess(b, c, m, b2, c2, m2, bus.State(), cache.State(), metrics, received, outcomes, messages[k..], outcome,
                      Spec.AlertCount(s, message), alertTopic, now);
          if apart {
            SettlingKeepsQueues(b2, bus.State(), message, outcome == Dead, alertTopic, insightTopic);
          }
          assert messages[..k + 1] == messages[..k] + [message];
          LoggedMore(s, log, received, outcomes, m, m2, c, x, metrics, script, alertTopic, now);
          received, outcomes, log := received + [message], outcomes + [outcome], log + [x];
          number := number + 1;
        }
        assert messages[..|messages|] == messages;
        PolledNext(s, st, i, before, start, messages, |first|, Whole(), maxMessages, script, now);
        if apart {
          TookNext(b, b1, bus.State(), first, i, signalTopic, insightTopic, subscription, maxMessages);
        }
        assert messages[|messages|..] == [];
        WaitingOver(b, c, m, bus.State(), cache.State(), metrics, received, outcomes, alertTopic, now);
      }
      LoggedMeans(s, log, received, outcomes, m, metrics, c, cache.State(), bus.State(), script, alertTopic, now);
      PolledToEnd(s, st, Whole(), total, maxMessages, script, now);
      if apart {
        TookAll(b, bus.State(), received, signalTopic, insightTopic, subscription, maxMessages);
      }
      PolledAddsUp(b, c, m, bus.State(), cache.State(), metrics, received, outcomes, alertTopic, now);
      forall key | IsProcessed(key) && Marked(cache.State(), key, now) && !Marked(c, key, now)
        ensures exists k :: Explains(log, k, key, bus.State(), alertTopic)
      {
        var k := MarkersExplained(c, log, cache.State(), bus.State(), key, alertTopic, now);
      }
    }

    lemma ReadyMeans()
      requires Ready()
      ensures maxAttempts >= 1
    {
    }
  }

  /** What a poll knows about the messages it handled so far. */
  ghost predicate Logged(s: Spec.Setup, log: seq<Treatment>, received: seq<Message>, outcomes: seq<Outcome>, m: Counters, m': Counters,
                         c: CacheState, c': CacheState, b': BusState, script: (nat, nat) -> Spec.Fault, alertTopic: string, now: real)
  {
    && Matches(log, received, outcomes)
    && (forall j | 0 <= j < |log| :: JudgedAt(s, log, j, script, now))
    && m'.refused == m.refused + RefusedIn(log) && m'.retries == m.retries + RetriesIn(log)
    && Traced(c, log, c', b', alertTopic, now)
  }

  lemma LoggedMeans(s: Spec.Setup, log: seq<Treatment>, received: seq<Message>, outcomes: seq<Outcome>, m: Counters, m': Counters,
                    c: CacheState, c': CacheState, b': BusState, script: (nat, nat) -> Spec.Fault, alertTopic: string, now: real)
    requires Logged(s, log, received, outcomes, m, m', c, c', b', script, alertTopic, now)
    ensures Matches(log, received, outcomes) && Traced(c, log, c', b', alertTopic, now)
    ensures forall j | 0 <= j < |log| :: JudgedAt(s, log, j, script, now)
    ensures m'.refused == m.refused + RefusedIn(log) && m'.retries == m.retries + RetriesIn(log)
  {
  }

  lemma LoggedNothing(s: Spec.Setup, m: Counters, c: CacheState, b: BusState, script: (nat, nat) -> Spec.Fault, alertTopic: string, now: real)
    ensures Logged(s, [], [], [], m, m, c, c, b, script, alertTopic, now)
  {
  }

  lemma LoggedLater(s: Spec.Setup, log: seq<Treatment>, received: seq<Message>, outcomes: seq<Outcome>, m: Counters, m': Counters,
                    c: CacheState, c': CacheState, b: BusState, b': BusState, script: (nat, nat) -> Spec.Fault, alertTopic: string, now: real)
    requires Logged(s, log, received, outcomes, m, m', c, c', b, script, alertTopic, now) && b.Seen(alertTopic) <= b'.Seen(alertTopic)
    ensures Logged(s, log, received, outcomes, m, m', c, c', b', script, alertTopic, now)
  {
    hide Traced, JudgedAt, Matches, BusState.Seen;
    TracedLater(c, log, c', b, b', alertTopic, now);
  }

  lemma LoggedMore(s: Spec.Setup, log: seq<Treatment>, received: seq<Message>, outcomes: seq<Outcome>, m: Counters, m1: Counters,
                   c: CacheState, x: Treatment, m2: Counters, script: (nat, nat) -> Spec.Fault, alertTopic: string, now: real)
    requires Logged(s, log, received, outcomes, m, m1, c, x.before.cache, x.before.bus, script, alertTopic, now)
    requires Judged(s, x, now) && Treated(x, alertTopic, now) && x.faults == Spec.FaultsOf(script, |received|)
    requires m2 == Spec.Charged(m1.(seen := m1.seen + 1), x.effect, Spec.AlertCount(s, x.m))
    ensures Logged(s, log + [x], received + [x.m], outcomes + [x.Outcome()], m, m2, c, x.after.cache, x.after.bus, script, alertTopic, now)
  {
    LogLength(log, received, outcomes);
    TracedMore(c, log, x, alertTopic, now);
    MatchesMore(log, received, outcomes, x);
    CountsMore(log, x);
    JudgedMore(s, log, received, outcomes, x, script, now);
    ChargedCounts(m1, x.effect, Spec.AlertCount(s, x.m));
    hide Traced, JudgedAt, Judged, Matches, Treated, RefusedIn, RetriesIn, Spec.Charged;
  }

  lemma LogLength(log: seq<Treatment>, received: seq<Message>, outcomes: seq<Outcome>)
    requires Matches(log, received, outcomes)
    ensures |log| == |received| == |outcomes|
  {
  }

  /** The attempts counted as retries and the refusals are those of the effect. */
  lemma ChargedCounts(m: Counters, e: Spec.Effect, alerts: int)
    ensures var m' := Spec.Charged(m.(seen := m.seen + 1), e, alerts);
            && m'.refused == m.refused + (if e.refused then 1 else 0)
            && m'.retries == m.retries + (if e.attempts > 1 then e.attempts - 1 else 0)
  {
  }

  lemma MomentIs(s: Spec.Setup, x: Treatment, now: real)
    requires Judged(s, x, now)
    ensures x.before.World() == Spec.World(x.before.bus, x.before.cache) && x.after.World() == Spec.World(x.after.bus, x.after.cache)
    ensures x.after.World() == x.effect.world && x.after.breaker == x.effect.breaker
    ensures Moment(x.before.bus, x.before.cache, x.before.breaker) == x.before
    ensures Moment(x.after.bus, x.after.cache, x.after.breaker) == x.after
  {
  }

  /** Message `k` of the poll ended as its event, the breaker and its own faults decide. */
  ghost predicate JudgedAt(s: Spec.Setup, log: seq<Treatment>, k: int, script: (nat, nat) -> Spec.Fault, now: real) {
    0 <= k < |log| && Judged(s, log[k], now) && log[k].faults == Spec.FaultsOf(script, k)
  }

  lemma JudgedMore(s: Spec.Setup, log: seq<Treatment>, received: seq<Message>, outcomes: seq<Outcome>, x: Treatment,
                   script: (nat, nat) -> Spec.Fault, now: real)
    requires forall j | 0 <= j < |log| :: JudgedAt(s, log, j, script, now)
    requires Judged(s, x, now) && x.faults == Spec.FaultsOf(script, |log|)
    ensures forall j | 0 <= j < |log + [x]| :: JudgedAt(s, log + [x], j, script, now)
  {
    hide Judged, Spec.FaultsOf;
    forall j | 0 <= j < |log + [x]|
      ensures JudgedAt(s, log + [x], j, script, now)
    {
      assert j < |log| ==> JudgedAt(s, log, j, script, now);
    }
  }

  /** The state after `i` of the two topics were polled. */
  ghost predicate PolledTo(s: Spec.Setup, st: Spec.AlertState, i: nat, now': Spec.AlertState, total: nat, max: int,
                           script: (nat, nat) -> Spec.Fault, now: real)
  {
    && s.maxAttempts >= 1
    && (i == 0 ==> now' == st && total == 0)
    && (i == 1 ==> (now', total) == Spec.TopicPolled(s, st, s.signalTopic, max, 0, script, now))
    && (i == 2 ==> now' == Spec.Polled(s, st, max, script, now))
  }

  lemma PolledToStart(s: Spec.Setup, st: Spec.AlertState, max: int, script: (nat, nat) -> Spec.Fault, now: real)
    requires s.maxAttempts >= 1
    ensures PolledTo(s, st, 0, st, 0, max, script, now)
  {
  }

  lemma PolledNext(s: Spec.Setup, st: Spec.AlertState, i: nat, before: Spec.AlertState, start: Spec.AlertState, messages: seq<Message>,
                   first: nat, after: Spec.AlertState, max: int, script: (nat, nat) -> Spec.Fault, now: real)
    requires i < 2 && PolledTo(s, st, i, before, first, max, script, now)
    requires var topic := if i == 0 then s.signalTopic else s.insightTopic;
             && (start.world.bus, messages) == Received(before.world.bus, topic, s.subscription, max)
             && start == before.(world := before.world.(bus := start.world.bus))
    requires s.maxAttempts >= 1 && after == Spec.HandledAll(s, start, messages, first, script, now)
    ensures PolledTo(s, st, i + 1, after, first + |messages|, max, script, now)
  {
    hide Spec.HandledAll, Received;
  }

  lemma PolledToEnd(s: Spec.Setup, st: Spec.AlertState, after: Spec.AlertState, total: nat, max: int,
                    script: (nat, nat) -> Spec.Fault, now: real)
    requires PolledTo(s, st, 2, after, total, max, script, now)
    ensures after == Spec.Polled(s, st, max, script, now)
  {
  }

  lemma NoneHandled(s: Spec.Setup, st: Spec.AlertState, first: nat, script: (nat, nat) -> Spec.Fault, now: real)
    requires s.maxAttempts >= 1
    ensures Spec.HandledAll(s, st, [], first, script, now) == st
  {
  }

  lemma OneHandled(s: Spec.Setup, start: Spec.AlertState, messages: seq<Message>, k: nat, first: nat,
                   script: (nat, nat) -> Spec.Fault, x: Treatment, m: Counters, now: real)
    requires s.maxAttempts >= 1 && k < |messages|
    requires var st := Spec.HandledAll(s, start, messages[..k], first, script, now);
             && st == Spec.AlertState(x.before.World(), x.before.breaker, m)
             && x.effect == Spec.Handle(s, x.before.World(), x.before.breaker, messages[k], Spec.FaultsOf(script, first + k), now)
             && x.after.World() == x.effect.world && x.after.breaker == x.effect.breaker
    ensures Spec.HandledAll(s, start, messages[..k + 1], first, script, now)
            == Spec.AlertState(x.after.World(), x.after.breaker,
                               Spec.Charged(m.(seen := m.seen + 1), x.effect, Spec.AlertCount(s, messages[k])))
  {
    hide Spec.Handle, Spec.Charged, Spec.AlertCount, Spec.FaultsOf;
    assert messages[..k + 1][..k] == messages[..k];
  }
}
