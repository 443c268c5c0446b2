/**
  The protocol's shared state is an abstraction of the real bus and cache: what an await does to
  them is what the protocol's step does, while no lock or marker expires.
 */
module AlertingRefinement {
  import opened Wrappers
  import opened Bus
  import opened Cache
  import opened Alerting
  import L = BusLedger
  import P = AlertingProtocol
  import S = AlertingSafety

  /** Where the workers run: the topic of the events, the topic of the alerts, and one subscription to them. */
  datatype Place = Place(topic: string, alertTopic: string, sub: string)

  /** The ids of the alerts a subscription accepted, in order. */
  function IdsOf(accepted: seq<Message>): (ids: seq<string>)
    ensures |ids| == |accepted|
  {
    seq(|accepted|, i requires 0 <= i < |accepted| => accepted[i].messageId)
  }

  /** The markers and locks of the protocol are those in the cache. */
  ghost predicate SameCache(sh: P.Shared, c: CacheState, at: Place, now: real) {
    && (forall k :: k in sh.processed <==> Marked(c, ProcessedKey(at.topic, k), now))
    && (forall k :: k in sh.locks <==> Present(c, LockKey(at.topic, k), now))
    && (forall id :: id in sh.marked <==> Marked(c, PublishedKey(id), now))
  }

  /** The ids seen are those the bus has seen, and the alerts emitted are those the subscription accepted. */
  ghost predicate SameBus(sh: P.Shared, b: BusState, accepted: seq<Message>, at: Place) {
    && sh.seenIds == b.Seen(at.alertTopic)
    && at.sub in b.QueuesOf(at.alertTopic)
    && sh.emitted == IdsOf(accepted)
  }

  // ---------------------------------------------------------------------------
  // What an await really does
  // ---------------------------------------------------------------------------

  /** The alert of one await: what is published for it, and the message being handled. */
  datatype Payload = Payload(body: string, corr: Option<string>, m: Message)

  function BusAfter(cfg: P.Config, phase: P.Phase, choice: P.Choice, b: BusState, x: Payload, at: Place): BusState {
    match phase
    case Publishing(d, n, i) =>
      if choice.fails && !choice.tookEffect then b else Published(b, at.alertTopic, x.body, P.AlertId(cfg, d, i), x.corr)
    case Completing(d) => Completed(b, x.m)
    case DeadLettering(d) => DeadLettered(b, x.m)
    case _ => b
  }

  /** What the subscription has accepted after the await. */
  function AcceptedAfter(cfg: P.Config, phase: P.Phase, choice: P.Choice, b: BusState, accepted: seq<Message>, x: Payload, at: Place): seq<Message> {
    match phase
    case Publishing(d, n, i) =>
      if choice.fails && !choice.tookEffect then accepted
      else
        L.Note(L.View(b, at.alertTopic, at.sub), L.Ledger(accepted, [], []),
               L.Publish(at.alertTopic, x.body, P.AlertId(cfg, d, i), x.corr), at.alertTopic, at.sub).accepted
    case _ => accepted
  }

  function CacheAfter(cfg: P.Config, phase: P.Phase, choice: P.Choice, c: CacheState, at: Place, now: real): CacheState {
    match phase
    case Checking(d) => Evicted(c, ProcessedKey(at.topic, d.key), now)
    case Claiming(d) => Claimed(c, LockKey(at.topic, d.key), Flag(true), Some(LOCK_TTL), now).0
    case Reading(d, n, i) => if choice.fails then c else Evicted(c, PublishedKey(P.AlertId(cfg, d, i)), now)
    case Marking(d, n, i) =>
      if choice.fails && !choice.tookEffect then c
      else Stored(c, PublishedKey(P.AlertId(cfg, d, i)), Flag(true), Some(IDEMPOTENCY_TTL), now)
    case Finishing(d, n) =>
      if choice.fails && !choice.tookEffect then c
      else Stored(c, ProcessedKey(at.topic, d.key), Flag(true), Some(IDEMPOTENCY_TTL), now)
    case Unlocking(d, ok) => Without(c, LockKey(at.topic, d.key))
    case _ => c
  }

  // ---------------------------------------------------------------------------
  // Keys
  // ---------------------------------------------------------------------------

  lemma OwnKeys(topic: string, k1: string, k2: string)
    ensures ProcessedKey(topic, k1) == ProcessedKey(topic, k2) <==> k1 == k2
    ensures LockKey(topic, k1) == LockKey(topic, k2) <==> k1 == k2
  {
    var p, l := "alerting:processed:" + topic + ":", "alerting:lock:" + topic + ":";
    assert ProcessedKey(topic, k1) == p + k1 && ProcessedKey(topic, k2) == p + k2;
    assert LockKey(topic, k1) == l + k1 && LockKey(topic, k2) == l + k2;
    assert (p + k1)[|p|..] == k1 && (p + k2)[|p|..] == k2;
    assert (l + k1)[|l|..] == k1 && (l + k2)[|l|..] == k2;
  }

  /** The three kinds of keys, for any two events and alerts. */
  lemma KeysDiffer(topic: string, k: string, id: string)
    ensures LockKey(topic, k) != ProcessedKey(topic, id) && LockKey(topic, k) != PublishedKey(id)
    ensures PublishedKey(id) != ProcessedKey(topic, k)
  {
    KeysApart(topic, k, id, id);
    KeysApart(topic, id, id, id);
  }

  // ---------------------------------------------------------------------------
  // The cache
  // ---------------------------------------------------------------------------

  lemma EvictedSame(sh: P.Shared, c: CacheState, key: string, at: Place, now: real)
    requires SameCache(sh, c, at, now)
    ensures SameCache(sh, Evicted(c, key, now), at, now)
  {
    GetGrows(c, key, now);
    forall other
      ensures Present(Evicted(c, key, now), other, now) <==> Present(c, other, now)
    {
      EvictionIsInvisible(c, key, now, other, now);
    }
    hide Marked, Present, Evicted, ProcessedKey, LockKey, PublishedKey;
  }

  /** Setting one marker. */
  lemma StoredKey(c: CacheState, key: string, now: real)
    ensures var c' := Stored(c, key, Flag(true), Some(IDEMPOTENCY_TTL), now);
            && (forall k :: Marked(c', k, now) <==> k == key || Marked(c, k, now))
            && (forall k | k != key :: Present(c', k, now) <==> Present(c, k, now))
  {
  }

  lemma MarkedAlert(sh: P.Shared, c: CacheState, id: string, at: Place, now: real)
    requires SameCache(sh, c, at, now)
    ensures SameCache(sh.(marked := sh.marked + {id}), Stored(c, PublishedKey(id), Flag(true), Some(IDEMPOTENCY_TTL), now), at, now)
  {
    var c' := Stored(c, PublishedKey(id), Flag(true), Some(IDEMPOTENCY_TTL), now);
    StoredKey(c, PublishedKey(id), now);
    hide Marked, Present, ProcessedKey, LockKey, PublishedKey, Stored;
    forall k
      ensures Marked(c', ProcessedKey(at.topic, k), now) <==> Marked(c, ProcessedKey(at.topic, k), now)
      ensures Present(c', LockKey(at.topic, k), now) <==> Present(c, LockKey(at.topic, k), now)
    {
      KeysDiffer(at.topic, k, id);
    }
    forall other
      ensures Marked(c', PublishedKey(other), now) <==> other == id || Marked(c, PublishedKey(other), now)
    {
      KeysApart("", "", other, id);
    }
  }

  lemma MarkedEvent(sh: P.Shared, c: CacheState, key: string, at: Place, now: real)
    requires SameCache(sh, c, at, now)
    ensures SameCache(sh.(processed := sh.processed + {key}),
                      Stored(c, ProcessedKey(at.topic, key), Flag(true), Some(IDEMPOTENCY_TTL), now), at, now)
  {
    var c' := Stored(c, ProcessedKey(at.topic, key), Flag(true), Some(IDEMPOTENCY_TTL), now);
    StoredKey(c, ProcessedKey(at.topic, key), now);
    hide Marked, Present, ProcessedKey, LockKey, PublishedKey, Stored;
    forall k
      ensures Marked(c', ProcessedKey(at.topic, k), now) <==> k == key || Marked(c, ProcessedKey(at.topic, k), now)
      ensures Present(c', LockKey(at.topic, k), now) <==> Present(c, LockKey(at.topic, k), now)
    {
      OwnKeys(at.topic, k, key);
      KeysDiffer(at.topic, k, key);
    }
    forall id
      ensures Marked(c', PublishedKey(id), now) <==> Marked(c, PublishedKey(id), now)
    {
      KeysDiffer(at.topic, key, id);
    }
  }

  /** Taking or dropping one lock. */
  lemma LockedKey(c: CacheState, key: string, now: real)
    ensures var (c', claimed) := Claimed(c, key, Flag(true), Some(LOCK_TTL), now);
            && (claimed <==> !Present(c, key, now))
            && (forall k | k != key :: Marked(c', k, now) <==> Marked(c, k, now))
            && (forall k :: Present(c', k, now) <==> k == key || Present(c, k, now))
    ensures var c' := Without(c, key);
            && (forall k | k != key :: Marked(c', k, now) <==> Marked(c, k, now))
            && (forall k :: Present(c', k, now) <==> k != key && Present(c, k, now))
  {
  }

  lemma LockTaken(sh: P.Shared, c: CacheState, key: string, w: nat, at: Place, now: real)
    requires SameCache(sh, c, at, now)
    ensures var (c', claimed) := Claimed(c, LockKey(at.topic, key), Flag(true), Some(LOCK_TTL), now);
            && (claimed <==> key !in sh.locks)
            && SameCache(if claimed then sh.(locks := sh.locks[key := w]) else sh, c', at, now)
    ensures SameCache(sh.(locks := sh.locks - {key}), Without(c, LockKey(at.topic, key)), at, now)
  {
    var key' := LockKey(at.topic, key);
    var taken, dropped := Claimed(c, key', Flag(true), Some(LOCK_TTL), now).0, Without(c, key');
    LockedKey(c, key', now);
    hide Marked, Present, ProcessedKey, LockKey, PublishedKey, Claimed, Without;
    forall k
      ensures Present(taken, LockKey(at.topic, k), now) <==> k == key || Present(c, LockKey(at.topic, k), now)
      ensures Present(dropped, LockKey(at.topic, k), now) <==> k != key && Present(c, LockKey(at.topic, k), now)
      ensures Marked(taken, ProcessedKey(at.topic, k), now) <==> Marked(c, ProcessedKey(at.topic, k), now)
      ensures Marked(dropped, ProcessedKey(at.topic, k), now) <==> Marked(c, ProcessedKey(at.topic, k), now)
    {
      OwnKeys(at.topic, k, key);
      KeysDiffer(at.topic, key, k);
    }
    forall id
      ensures Marked(taken, PublishedKey(id), now) <==> Marked(c, PublishedKey(id), now)
      ensures Marked(dropped, PublishedKey(id), now) <==> Marked(c, PublishedKey(id), now)
    {
      KeysDiffer(at.topic, key, id);
    }
  }

  // ---------------------------------------------------------------------------
  // The bus
  // ---------------------------------------------------------------------------

  lemma EmittedAlert(sh: P.Shared, b: BusState, accepted: seq<Message>, body: string, id: string, corr: Option<string>, at: Place)
    requires SameBus(sh, b, accepted, at)
    ensures var after := L.Note(L.View(b, at.alertTopic, at.sub), L.Ledger(accepted, [], []),
                                L.Publish(at.alertTopic, body, id, corr), at.alertTopic, at.sub).accepted;
            SameBus(P.Emit(sh, id), Published(b, at.alertTopic, body, id, corr), after, at)
  {
  }

  lemma SettledSame(sh: P.Shared, b: BusState, accepted: seq<Message>, m: Message, at: Place)
    requires SameBus(sh, b, accepted, at)
    ensures SameBus(sh, Completed(b, m), accepted, at) && SameBus(sh, DeadLettered(b, m), accepted, at)
  {
  }

  // ---------------------------------------------------------------------------
  // Every await
  // ---------------------------------------------------------------------------

  /** The fields the cache and the bus stand for. */
  predicate SameFields(sh: P.Shared, sh': P.Shared) {
    && sh.processed == sh'.processed && sh.locks == sh'.locks && sh.marked == sh'.marked
    && sh.seenIds == sh'.seenIds && sh.emitted == sh'.emitted
  }

  lemma FieldsDecide(sh: P.Shared, sh': P.Shared, b: BusState, c: CacheState, accepted: seq<Message>, at: Place, now: real)
    requires SameFields(sh, sh') && SameCache(sh, c, at, now) && SameBus(sh, b, accepted, at)
    ensures SameCache(sh', c, at, now) && SameBus(sh', b, accepted, at)
  {
  }

  /**
    Each await of a worker does to the bus and the cache what the protocol's step says: the protocol
    reads the markers and locks that are really there, and its alert list is what a subscription gets.
   */
  lemma StepIsReal(cfg: P.Config, sh: P.Shared, w: nat, me: P.Worker, choice: P.Choice, b: BusState, c: CacheState,
                   accepted: seq<Message>, x: Payload, at: Place, now: real)
    requires SameCache(sh, c, at, now) && SameBus(sh, b, accepted, at)
    ensures var sh' := P.WorkerStep(cfg, sh, w, me, choice).0;
            && SameCache(sh', CacheAfter(cfg, me.phase, choice, c, at, now), at, now)
            && SameBus(sh', BusAfter(cfg, me.phase, choice, b, x, at), AcceptedAfter(cfg, me.phase, choice, b, accepted, x, at), at)
  {
    hide SameCache, SameBus, P.Emit, L.Note, L.View;
    var sh' := P.WorkerStep(cfg, sh, w, me, choice).0;
    match me.phase
    case Waiting => FieldsDecide(sh, sh', b, c, accepted, at, now);
    case Checking(d) => EvictedSame(sh, c, ProcessedKey(at.topic, d.key), at, now);
    case Claiming(d) =>
      LockTaken(sh, c, d.key, w, at, now);
      NotedKeepsBus(sh, sh', b, accepted, at);
    case Entering(d) =>
    case Reading(d, n, i) => EvictedSame(sh, c, PublishedKey(P.AlertId(cfg, d, i)), at, now);
    case Publishing(d, n, i) =>
      EmittedAlert(sh, b, accepted, x.body, P.AlertId(cfg, d, i), x.corr, at);
      EmitKeepsCache(sh, P.AlertId(cfg, d, i), c, at, now);
    case Marking(d, n, i) =>
      MarkedAlert(sh, c, P.AlertId(cfg, d, i), at, now);
      NotedKeepsBus(sh, sh', b, accepted, at);
    case Finishing(d, n) =>
      MarkedEvent(sh, c, d.key, at, now);
      NotedKeepsBus(sh, sh', b, accepted, at);
    case Unlocking(d, ok) =>
      LockTaken(sh, c, d.key, w, at, now);
      NotedKeepsBus(sh, sh', b, accepted, at);
    case Completing(d) =>
      SettledSame(sh, b, accepted, x.m, at);
      FieldsDecide(sh, sh', Completed(b, x.m), c, accepted, at, now);
    case DeadLettering(d) =>
      SettledSame(sh, b, accepted, x.m, at);
      FieldsDecide(sh, sh', DeadLettered(b, x.m), c, accepted, at, now);
  }

  lemma EmitKeepsCache(sh: P.Shared, id: string, c: CacheState, at: Place, now: real)
    requires SameCache(sh, c, at, now)
    ensures SameCache(P.Emit(sh, id), c, at, now)
  {
  }

  lemma NotedKeepsBus(sh: P.Shared, sh': P.Shared, b: BusState, accepted: seq<Message>, at: Place)
    requires SameBus(sh, b, accepted, at) && sh'.seenIds == sh.seenIds && sh'.emitted == sh.emitted
    ensures SameBus(sh', b, accepted, at)
  {
  }

  // ---------------------------------------------------------------------------
  // Every run
  // ---------------------------------------------------------------------------

  /** The real bus and cache, and what the subscription to the alerts has accepted. */
  datatype World = World(bus: BusState, cache: CacheState, accepted: seq<Message>)

  ghost predicate Real(sh: P.Shared, world: World, at: Place, now: real) {
    SameCache(sh, world.cache, at, now) && SameBus(sh, world.bus, world.accepted, at)
  }

  /** One action of the protocol, carried out on the real bus and cache; an arriving event concerns neither. */
  function Carried(cfg: P.Config, s: P.State, a: P.Action, x: Payload, world: World, at: Place, now: real): World
    requires P.Enabled(s, a)
  {
    match a
    case Arrive(d) => world
    case Act(w, choice) =>
      var phase := s.workers[w].phase;
      World(BusAfter(cfg, phase, choice, world.bus, x, at), CacheAfter(cfg, phase, choice, world.cache, at, now),
            AcceptedAfter(cfg, phase, choice, world.bus, world.accepted, x, at))
  }

  function CarriedOut(cfg: P.Config, s: P.State, actions: seq<P.Action>, xs: seq<Payload>, world: World, at: Place, now: real): World
    requires P.IsRun(cfg, s, actions) && |xs| == |actions|
    decreases |actions|
  {
    if actions == [] then world
    else CarriedOut(cfg, P.Next(cfg, s, actions[0]), actions[1..], xs[1..], Carried(cfg, s, actions[0], xs[0], world, at, now), at, now)
  }

  lemma ActionIsReal(cfg: P.Config, s: P.State, a: P.Action, x: Payload, world: World, at: Place, now: real)
    requires P.Enabled(s, a) && Real(s.shared, world, at, now)
    ensures Real(P.Next(cfg, s, a).shared, Carried(cfg, s, a, x, world, at, now), at, now)
  {
    hide SameCache, SameBus, P.WorkerStep, BusAfter, CacheAfter, AcceptedAfter;
    match a
    case Arrive(d) => FieldsDecide(s.shared, P.Next(cfg, s, a).shared, world.bus, world.cache, world.accepted, at, now);
    case Act(w, choice) =>
      StepIsReal(cfg, s.shared, w, s.workers[w], choice, world.bus, world.cache, world.accepted, x, at, now);
  }

  /** However the workers interleave and whatever fails, the real bus and cache stay what the protocol says. */
  lemma {:induction false} RunIsReal(cfg: P.Config, s: P.State, actions: seq<P.Action>, xs: seq<Payload>, world: World, at: Place, now: real)
    requires P.IsRun(cfg, s, actions) && |xs| == |actions| && Real(s.shared, world, at, now)
    ensures Real(P.After(cfg, s, actions).shared, CarriedOut(cfg, s, actions, xs, world, at, now), at, now)
    decreases |actions|
  {
    if actions != [] {
      hide Real, Carried, P.Next, P.Enabled;
      ActionIsReal(cfg, s, actions[0], xs[0], world, at, now);
      RunIsReal(cfg, P.Next(cfg, s, actions[0]), actions[1..], xs[1..], Carried(cfg, s, actions[0], xs[0], world, at, now), at, now);
    }
  }

  /** Nothing is marked, locked or seen yet, and the subscription exists. */
  ghost predicate Untouched(world: World, at: Place, now: real) {
    && (forall k :: !Marked(world.cache, k, now) && !Present(world.cache, k, now))
    && world.bus.Seen(at.alertTopic) == {} && at.sub in world.bus.QueuesOf(at.alertTopic) && world.accepted == []
  }

  /**
    What the workers really do: a subscription to the alerts accepts every alert id at most once, and
    has all the alerts of every event that the cache shows as processed.
   */
  lemma AlertsReallyOnce(cfg: P.Config, n: nat, actions: seq<P.Action>, xs: seq<Payload>, world: World, at: Place, now: real)
    requires P.IsRun(cfg, P.Start(n), actions) && |xs| == |actions| && Untouched(world, at, now)
    ensures var end := CarriedOut(cfg, P.Start(n), actions, xs, world, at, now);
            && S.Distinct(IdsOf(end.accepted))
            && (forall k, i | Marked(end.cache, ProcessedKey(at.topic, k), now) && 0 <= i < |cfg.alerts(k)| ::
                  cfg.alerts(k)[i] in IdsOf(end.accepted))
  {
    hide P.IsRun, P.After, CarriedOut, Marked, Present, ProcessedKey, LockKey, PublishedKey;
    StartIsReal(n, world, at, now);
    RunIsReal(cfg, P.Start(n), actions, xs, world, at, now);
    S.AlertsOnce(cfg, n, actions);
  }

  lemma StartIsReal(n: nat, world: World, at: Place, now: real)
    requires Untouched(world, at, now)
    ensures Real(P.Start(n).shared, world, at, now)
  {
    hide Marked, Present, ProcessedKey, LockKey, PublishedKey;
  }
}
