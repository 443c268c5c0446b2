/**
  Accounts for every message a subscription was ever given: it is queued, in flight, completed,
  dead-lettered or drained, and never in two places.
 */
module BusLedger {
  import opened Wrappers
  import opened Bus

  datatype Op =
    | Publish(topic: string, body: string, mid: string, corr: Option<string>)
    | Receive(topic: string, sub: string, max: int)
    | Complete(m: Message)
    | DeadLetter(m: Message)
    | Drain(topic: string, sub: string)
    | Peek(topic: string, sub: string, n: int, from: Option<nat>)

  function Apply(b: BusState, op: Op): BusState {
    match op
    case Publish(topic, body, mid, corr) => Published(b, topic, body, mid, corr)
    case Receive(topic, sub, max) => Received(b, topic, sub, max).0
    case Complete(m) => Completed(b, m)
    case DeadLetter(m) => DeadLettered(b, m)
    case Drain(topic, sub) => Drained(b, topic, sub).0
    case Peek(topic, sub, n, from) => Peeked(b, topic, sub, n, from).0
  }

  predicate On(m: Message, t: string, s: string) {
    m.topic == t && m.subscription == s
  }

  // ---------------------------------------------------------------------------
  // One subscription
  // ---------------------------------------------------------------------------

  /** The part of the bus that one subscription sees. */
  datatype Channel = Channel(
    subscribed: bool, queue: seq<Message>, flying: set<Message>, dlq: seq<Message>, seen: set<string>, next: nat)

  function Flying(b: BusState, t: string, s: string): set<Message> {
    set m | m in b.inFlight && On(m, t, s)
  }

  function View(b: BusState, t: string, s: string): Channel {
    Channel(s in b.QueuesOf(t), b.Queue(t, s), Flying(b, t, s), b.Dlq(t, s), b.Seen(t), b.Next(t))
  }

  /** What a subscription has been through: messages accepted for it, completed, and drained from its dead-letter queue. */
  datatype Ledger = Ledger(accepted: seq<Message>, completed: seq<Message>, drained: seq<Message>)

  const NEW_LEDGER := Ledger([], [], [])

  function Note(c: Channel, log: Ledger, op: Op, t: string, s: string): Ledger {
    match op
    case Publish(topic, body, mid, corr) =>
      if topic == t && c.subscribed && mid !in c.seen then
        log.(accepted := log.accepted + [Message(t, s, body, mid, corr, c.next)])
      else log
    case Complete(m) => if m in c.flying then log.(completed := log.completed + [m]) else log
    case Drain(topic, sub) => if topic == t && sub == s then log.(drained := log.drained + c.dlq) else log
    case _ => log
  }

  /** Where the messages that left the queue are now. */
  function Settled(c: Channel, log: Ledger): multiset<Message> {
    multiset(c.flying) + multiset(c.dlq) + multiset(log.completed) + multiset(log.drained)
  }

  predicate Accounted(c: Channel, log: Ledger) {
    var gone := |log.accepted| - |c.queue|;
    && gone >= 0
    && c.queue == log.accepted[gone..]
    && multiset(log.accepted[..gone]) == Settled(c, log)
  }

  /** Message `i` of those accepted carries the topic's sequence numbers without a gap, and an id the topic has seen. */
  predicate AcceptedAt(c: Channel, accepted: seq<Message>, i: nat, t: string, s: string)
    requires i < |accepted|
  {
    && On(accepted[i], t, s)
    && accepted[i].sequenceNumber == c.next - |accepted| + i
    && accepted[i].messageId in c.seen
  }

  ghost predicate InOrder(c: Channel, accepted: seq<Message>, t: string, s: string) {
    && (!c.subscribed ==> accepted == [])
    && |accepted| <= c.next
    && (forall i | 0 <= i < |accepted| :: AcceptedAt(c, accepted, i, t, s))
    && DistinctIds(accepted)
  }

  predicate DistinctIds(ms: seq<Message>) {
    forall i, j | 0 <= i < j < |ms| :: ms[i].messageId != ms[j].messageId
  }

  ghost predicate Conserved(c: Channel, log: Ledger, t: string, s: string) {
    Accounted(c, log) && InOrder(c, log.accepted, t, s)
  }

  lemma ConservedStart(t: string, s: string)
    ensures Conserved(View(EMPTY_BUS, t, s), NEW_LEDGER, t, s)
  {
  }

  // ---------------------------------------------------------------------------
  // Each operation, seen by one subscription
  // ---------------------------------------------------------------------------

  function Step(c: Channel, op: Op, t: string, s: string): Channel {
    match op
    case Publish(topic, body, mid, corr) =>
      if topic != t || mid in c.seen then c
      else
        c.(seen := c.seen + {mid}, next := c.next + 1,
           queue := if c.subscribed then c.queue + [Message(t, s, body, mid, corr, c.next)] else c.queue)
    case Receive(topic, sub, max) =>
      if topic != t || sub != s then c
      else
        var k := Taken(c.queue, max);
        c.(subscribed := true, queue := c.queue[k..], flying := c.flying + (set m | m in c.queue[..k]))
    case Complete(m) => c.(flying := c.flying - {m})
    case DeadLetter(m) => if On(m, t, s) then c.(flying := c.flying - {m}, dlq := c.dlq + [m]) else c
    case Drain(topic, sub) => if topic == t && sub == s then c.(dlq := []) else c
    case Peek(topic, sub, _, _) => if topic == t && sub == s then c.(subscribed := true) else c
  }

  /** A queue holds only copies addressed to it. */
  predicate RoutedTo(queue: seq<Message>, t: string, s: string) {
    forall i | 0 <= i < |queue| :: On(queue[i], t, s)
  }

  ghost predicate Routed(b: BusState) {
    forall t, s :: RoutedTo(b.Queue(t, s), t, s)
  }

  lemma ViewOfPublish(b: BusState, op: Op, t: string, s: string)
    requires op.Publish?
    ensures View(Apply(b, op), t, s) == Step(View(b, t, s), op, t, s)
  {
    var b' := Apply(b, op);
    assert Flying(b', t, s) == Flying(b, t, s);
    if op.topic == t && op.mid !in b.Seen(t) {
      assert b'.QueuesOf(t) == WithCopies(b.QueuesOf(t), t, op.body, op.mid, op.corr, b.Next(t));
    } else {
      assert b'.QueuesOf(t) == b.QueuesOf(t);
    }
  }

  lemma ViewOfReceive(b: BusState, op: Op, t: string, s: string)
    requires Routed(b) && op.Receive?
    ensures View(Apply(b, op), t, s) == Step(View(b, t, s), op, t, s)
  {
    hide BusState.WithQueue, BusState.Queue, BusState.QueuesOf, BusState.Dlq, BusState.DlqsOf, Flying;
    var queue := b.Queue(op.topic, op.sub);
    var k := Taken(queue, op.max);
    FlyingAfterReceive(b, queue[..k], op.topic, op.sub, t, s) by {
      assert RoutedTo(queue, op.topic, op.sub);
    }
    WithQueueOnlyThere(b, op.topic, op.sub, queue[k..], t, s);
    NothingElseMatters(b.WithQueue(op.topic, op.sub, queue[k..]), Apply(b, op), t, s);
    SameFlying(b.(inFlight := b.inFlight + set m | m in queue[..k]), Apply(b, op), t, s);
    Untouched(b, op.topic, op.sub, queue[k..], [], t, s);
  }

  lemma FlyingAfterReceive(b: BusState, msgs: seq<Message>, topic: string, sub: string, t: string, s: string)
    requires RoutedTo(msgs, topic, sub)
    ensures Flying(b.(inFlight := b.inFlight + set m | m in msgs), t, s)
            == Flying(b, t, s) + if topic == t && sub == s then set m | m in msgs else {}
  {
  }

  lemma NothingElseMatters(b: BusState, b': BusState, t: string, s: string)
    requires b' == b.(inFlight := b'.inFlight)
    ensures b'.Queue(t, s) == b.Queue(t, s) && b'.QueuesOf(t) == b.QueuesOf(t) && b'.Dlq(t, s) == b.Dlq(t, s)
    ensures b'.Seen(t) == b.Seen(t) && b'.Next(t) == b.Next(t)
  {
  }

  lemma SameFlying(b: BusState, b': BusState, t: string, s: string)
    requires b'.inFlight == b.inFlight
    ensures Flying(b', t, s) == Flying(b, t, s)
  {
  }

  lemma Untouched(b: BusState, topic: string, sub: string, queue: seq<Message>, dlq: seq<Message>, t: string, s: string)
    ensures b.WithQueue(topic, sub, queue).Seen(t) == b.Seen(t) == b.WithDlq(topic, sub, dlq).Seen(t)
    ensures b.WithQueue(topic, sub, queue).Next(t) == b.Next(t) == b.WithDlq(topic, sub, dlq).Next(t)
    ensures b.WithQueue(topic, sub, queue).inFlight == b.inFlight == b.WithDlq(topic, sub, dlq).inFlight
  {
  }

  lemma ViewOfSettling(b: BusState, op: Op, t: string, s: string)
    requires op.Complete? || op.DeadLetter?
    ensures View(Apply(b, op), t, s) == Step(View(b, t, s), op, t, s)
  {
    hide BusState.WithDlq, BusState.Queue, BusState.QueuesOf, BusState.Dlq, BusState.DlqsOf;
    assert Flying(Apply(b, op), t, s) == Flying(b, t, s) - {op.m};
    assert !On(op.m, t, s) ==> Flying(b, t, s) - {op.m} == Flying(b, t, s);
    if op.DeadLetter? {
      var dlq := b.Dlq(op.m.topic, op.m.subscription) + [op.m];
      WithDlqOnlyThere(b, op.m.topic, op.m.subscription, dlq, t, s);
      Untouched(b, op.m.topic, op.m.subscription, [], dlq, t, s);
      NothingElseMatters(b.WithDlq(op.m.topic, op.m.subscription, dlq), Apply(b, op), t, s);
    } else {
      NothingElseMatters(b, Apply(b, op), t, s);
    }
  }

  lemma ViewOfReading(b: BusState, op: Op, t: string, s: string)
    requires op.Drain? || op.Peek?
    ensures View(Apply(b, op), t, s) == Step(View(b, t, s), op, t, s)
  {
    hide BusState.WithDlq, BusState.WithQueue, BusState.Queue, BusState.QueuesOf, BusState.Dlq, BusState.DlqsOf, Flying, Since;
    var queue := b.Queue(op.topic, op.sub);
    WithQueueOnlyThere(b, op.topic, op.sub, queue, t, s);
    WithDlqOnlyThere(b, op.topic, op.sub, [], t, s);
    Untouched(b, op.topic, op.sub, queue, [], t, s);
    SameFlying(b, Apply(b, op), t, s);
  }

  /** What an operation on the whole bus does to one subscription, and that it does nothing to the others. */
  lemma ViewSteps(b: BusState, op: Op, t: string, s: string)
    requires Routed(b)
    ensures View(Apply(b, op), t, s) == Step(View(b, t, s), op, t, s)
  {
    hide *;
    match op
    case Publish(_, _, _, _) => ViewOfPublish(b, op, t, s);
    case Receive(_, _, _) => ViewOfReceive(b, op, t, s);
    case Complete(_) => ViewOfSettling(b, op, t, s);
    case DeadLetter(_) => ViewOfSettling(b, op, t, s);
    case Drain(_, _) => ViewOfReading(b, op, t, s);
    case Peek(_, _, _, _) => ViewOfReading(b, op, t, s);
  }

  lemma RoutedSteps(b: BusState, op: Op)
    requires Routed(b)
    ensures Routed(Apply(b, op))
  {
    forall t, s
      ensures RoutedTo(Apply(b, op).Queue(t, s), t, s)
    {
      ViewSteps(b, op, t, s);
      assert RoutedTo(b.Queue(t, s), t, s);
    }
  }

  // ---------------------------------------------------------------------------
  // Nothing lost, nothing twice
  // ---------------------------------------------------------------------------

  lemma SameSettled(c: Channel, log: Ledger, c': Channel, log': Ledger)
    requires c'.flying == c.flying && c'.dlq == c.dlq && log'.completed == log.completed && log'.drained == log.drained
    ensures Settled(c', log') == Settled(c, log)
  {
  }

  lemma AppendedSlices(s: seq<Message>, x: Message, k: nat)
    requires k <= |s|
    ensures (s + [x])[..k] == s[..k] && (s + [x])[k..] == s[k..] + [x]
  {
  }

  lemma LongerPrefix(s: seq<Message>, i: nat, k: nat)
    requires i + k <= |s|
    ensures multiset(s[..i + k]) == multiset(s[..i]) + multiset(s[i..][..k])
    ensures s[i..][k..] == s[i + k..]
  {
    assert s[..i + k] == s[..i] + s[i..][..k];
  }

  lemma PublishAccounts(c: Channel, log: Ledger, op: Op, t: string, s: string)
    requires Accounted(c, log) && op.Publish?
    ensures Accounted(Step(c, op, t, s), Note(c, log, op, t, s))
  {
    hide Settled;
    SameSettled(c, log, Step(c, op, t, s), Note(c, log, op, t, s));
    AppendedSlices(log.accepted, Message(t, s, op.body, op.mid, op.corr, c.next), |log.accepted| - |c.queue|);
  }

  lemma PublishOrder(c: Channel, log: Ledger, op: Op, t: string, s: string)
    requires InOrder(c, log.accepted, t, s) && op.Publish?
    ensures InOrder(Step(c, op, t, s), Note(c, log, op, t, s).accepted, t, s)
  {
    var c', log' := Step(c, op, t, s), Note(c, log, op, t, s);
    forall i | 0 <= i < |log'.accepted|
      ensures AcceptedAt(c', log'.accepted, i, t, s)
    {
      assert i < |log.accepted| ==> AcceptedAt(c, log.accepted, i, t, s);
    }
    if |log'.accepted| > |log.accepted| {
      forall i | 0 <= i < |log.accepted|
        ensures log.accepted[i].messageId != op.mid
      {
        assert AcceptedAt(c, log.accepted, i, t, s);
      }
    }
  }

  lemma PublishKeeps(c: Channel, log: Ledger, op: Op, t: string, s: string)
    requires Conserved(c, log, t, s) && op.Publish?
    ensures Conserved(Step(c, op, t, s), Note(c, log, op, t, s), t, s)
  {
    hide Accounted, InOrder, Step, Note;
    PublishAccounts(c, log, op, t, s);
    PublishOrder(c, log, op, t, s);
  }

  lemma NotLater(ms: seq<Message>)
    requires ms != [] && DistinctIds(ms)
    ensures ms[0] !in ms[1..] && DistinctIds(ms[1..])
  {
    forall i | 0 <= i < |ms[1..]|
      ensures ms[1..][i] != ms[0]
    {
      assert ms[1..][i] == ms[1 + i];
    }
  }

  /** Distinct messages make a set with the same members, each once. */
  lemma {:induction false} SetOfDistinct(ms: seq<Message>)
    requires DistinctIds(ms)
    ensures multiset(set m | m in ms) == multiset(ms)
  {
    if ms == [] {
    } else {
      var rest := ms[1..];
      NotLater(ms);
      hide DistinctIds;
      SetOfDistinct(rest);
      assert ms == [ms[0]] + rest;
      assert (set m | m in ms) == {ms[0]} + (set m | m in rest);
    }
  }

  /** A queued message is not in flight. */
  lemma QueuedIsNotFlying(c: Channel, log: Ledger, j: nat)
    requires Accounted(c, log) && DistinctIds(log.accepted) && j < |c.queue|
    ensures c.queue[j] !in c.flying
  {
    var gone := |log.accepted| - |c.queue|;
    assert c.queue[j] == log.accepted[gone + j];
    assert c.queue[j] !in log.accepted[..gone];
    assert c.queue[j] !in Settled(c, log);
  }

  lemma QueuedAreDistinct(c: Channel, log: Ledger, k: nat)
    requires Accounted(c, log) && DistinctIds(log.accepted) && k <= |c.queue|
    ensures DistinctIds(c.queue[..k])
  {
    var gone := |log.accepted| - |c.queue|;
    forall i, j | 0 <= i < j < k
      ensures c.queue[i].messageId != c.queue[j].messageId
    {
      assert c.queue[i] == log.accepted[gone + i] && c.queue[j] == log.accepted[gone + j];
    }
  }

  lemma FreshInFlight(c: Channel, log: Ledger, k: nat)
    requires Accounted(c, log) && DistinctIds(log.accepted) && k <= |c.queue|
    ensures multiset(c.flying + set m | m in c.queue[..k]) == multiset(c.flying) + multiset(c.queue[..k])
  {
    var taken := set m | m in c.queue[..k];
    QueuedAreDistinct(c, log, k);
    SetOfDistinct(c.queue[..k]);
    forall m | m in taken
      ensures m !in c.flying
    {
      var j :| 0 <= j < k && c.queue[..k][j] == m;
      QueuedIsNotFlying(c, log, j);
    }
    assert multiset(c.flying + taken) == multiset(c.flying) + multiset(taken);
  }

  /** Moving `k` messages from the front of the queue into flight. */
  lemma TakingAccounts(c: Channel, log: Ledger, k: nat)
    requires Accounted(c, log) && DistinctIds(log.accepted) && k <= |c.queue|
    ensures Accounted(c.(subscribed := true, queue := c.queue[k..], flying := c.flying + set m | m in c.queue[..k]), log)
  {
    hide DistinctIds, Settled;
    var gone := |log.accepted| - |c.queue|;
    FreshInFlight(c, log, k);
    LongerPrefix(log.accepted, gone, k);
    SettledAfterReceive(c, log, k);
    var c' := c.(subscribed := true, queue := c.queue[k..], flying := c.flying + set m | m in c.queue[..k]);
    assert c.queue[..k] == log.accepted[gone..][..k];
    assert Settled(c', log) == multiset(log.accepted[..gone]) + multiset(c.queue[..k]);
    StillAccounted(c', log, gone + k);
  }

  lemma StillAccounted(c: Channel, log: Ledger, gone: nat)
    requires gone <= |log.accepted| && c.queue == log.accepted[gone..]
    requires multiset(log.accepted[..gone]) == Settled(c, log)
    ensures Accounted(c, log)
  {
    assert |log.accepted| - |c.queue| == gone;
  }

  lemma ReceiveAccounts(c: Channel, log: Ledger, op: Op, t: string, s: string)
    requires Accounted(c, log) && DistinctIds(log.accepted) && op.Receive? && op.topic == t && op.sub == s
    ensures Accounted(Step(c, op, t, s), log)
  {
    hide DistinctIds, Accounted, Taken;
    TakingAccounts(c, log, Taken(c.queue, op.max));
  }

  lemma SettledAfterReceive(c: Channel, log: Ledger, k: nat)
    requires k <= |c.queue|
    requires multiset(c.flying + set m | m in c.queue[..k]) == multiset(c.flying) + multiset(c.queue[..k])
    ensures Settled(c.(subscribed := true, queue := c.queue[k..], flying := c.flying + set m | m in c.queue[..k]), log)
            == Settled(c, log) + multiset(c.queue[..k])
  {
  }

  lemma ReceiveKeeps(c: Channel, log: Ledger, op: Op, t: string, s: string)
    requires Conserved(c, log, t, s) && op.Receive?
    ensures Conserved(Step(c, op, t, s), Note(c, log, op, t, s), t, s)
  {
    hide Accounted;
    if op.topic == t && op.sub == s {
      ReceiveAccounts(c, log, op, t, s);
      SameOrder(c, Step(c, op, t, s), log.accepted, t, s);
    }
  }

  lemma SameOrder(c: Channel, c': Channel, accepted: seq<Message>, t: string, s: string)
    requires InOrder(c, accepted, t, s)
    requires c'.seen == c.seen && c'.next == c.next && (c.subscribed ==> c'.subscribed)
    ensures InOrder(c', accepted, t, s)
  {
    forall i | 0 <= i < |accepted|
      ensures AcceptedAt(c', accepted, i, t, s)
    {
      assert AcceptedAt(c, accepted, i, t, s);
    }
  }

  lemma CompleteAccounts(c: Channel, log: Ledger, op: Op, t: string, s: string)
    requires op.Complete?
    ensures Settled(Step(c, op, t, s), Note(c, log, op, t, s)) == Settled(c, log)
  {
    var c', log' := Step(c, op, t, s), Note(c, log, op, t, s);
    assert multiset(log'.completed) == multiset(log.completed) + if op.m in c.flying then multiset{op.m} else multiset{};
    assert multiset(c.flying) == multiset(c'.flying) + if op.m in c.flying then multiset{op.m} else multiset{};
  }

  /** Dead-lettering appends to the dead-letter queue whether or not the message was in flight. */
  lemma DeadLetterAccounts(c: Channel, log: Ledger, op: Op, t: string, s: string)
    requires op.DeadLetter? && On(op.m, t, s)
    ensures op.m in c.flying ==> Settled(Step(c, op, t, s), log) == Settled(c, log)
    ensures op.m !in c.flying ==> Settled(Step(c, op, t, s), log) == Settled(c, log) + multiset{op.m}
  {
    var c' := Step(c, op, t, s);
    assert multiset(c'.dlq) == multiset(c.dlq) + multiset{op.m};
    assert multiset(c.flying) == multiset(c'.flying) + if op.m in c.flying then multiset{op.m} else multiset{};
  }

  lemma DrainAccounts(c: Channel, log: Ledger, op: Op, t: string, s: string)
    requires op.Drain? || op.Peek?
    ensures Settled(Step(c, op, t, s), Note(c, log, op, t, s)) == Settled(c, log)
  {
    var c', log' := Step(c, op, t, s), Note(c, log, op, t, s);
    if op.Drain? && op.topic == t && op.sub == s {
      assert multiset(log'.drained) == multiset(log.drained) + multiset(c.dlq);
      assert multiset(c'.dlq) == multiset{};
    }
  }

  /** Operations that leave the queue alone and move settled messages between places. */
  lemma SettlingKeeps(c: Channel, log: Ledger, c': Channel, log': Ledger, t: string, s: string)
    requires Conserved(c, log, t, s)
    requires c'.queue == c.queue && log'.accepted == log.accepted
    requires c'.seen == c.seen && c'.next == c.next && (c.subscribed ==> c'.subscribed)
    ensures Conserved(c', log', t, s) <==> Settled(c', log') == Settled(c, log)
  {
    hide InOrder, Settled;
    SameOrder(c, c', log.accepted, t, s);
  }

  lemma CompleteKeeps(c: Channel, log: Ledger, op: Op, t: string, s: string)
    requires Conserved(c, log, t, s) && op.Complete?
    ensures Conserved(Step(c, op, t, s), Note(c, log, op, t, s), t, s)
  {
    hide Conserved, Settled;
    CompleteAccounts(c, log, op, t, s);
    SettlingKeeps(c, log, Step(c, op, t, s), Note(c, log, op, t, s), t, s);
  }

  /** The accounts of a subscription survive a dead-lettering exactly when the message was in flight. */
  lemma DeadLetterKeeps(c: Channel, log: Ledger, op: Op, t: string, s: string)
    requires Conserved(c, log, t, s) && op.DeadLetter?
    ensures Conserved(Step(c, op, t, s), Note(c, log, op, t, s), t, s) <==> (On(op.m, t, s) ==> op.m in c.flying)
  {
    hide Conserved, Settled;
    SettlingKeeps(c, log, Step(c, op, t, s), Note(c, log, op, t, s), t, s);
    if On(op.m, t, s) {
      DeadLetterAccounts(c, log, op, t, s);
      assert |Settled(c, log) + multiset{op.m}| == |Settled(c, log)| + 1;
    }
  }

  lemma ReadingKeeps(c: Channel, log: Ledger, op: Op, t: string, s: string)
    requires Conserved(c, log, t, s) && (op.Drain? || op.Peek?)
    ensures Conserved(Step(c, op, t, s), Note(c, log, op, t, s), t, s)
  {
    hide Conserved, Settled;
    DrainAccounts(c, log, op, t, s);
    SettlingKeeps(c, log, Step(c, op, t, s), Note(c, log, op, t, s), t, s);
  }

  lemma OpKeeps(b: BusState, log: Ledger, op: Op, t: string, s: string)
    requires Routed(b) && Conserved(View(b, t, s), log, t, s)
    requires op.DeadLetter? ==> op.m in b.inFlight
    ensures Conserved(View(Apply(b, op), t, s), Note(View(b, t, s), log, op, t, s), t, s)
  {
    var c := View(b, t, s);
    ViewSteps(b, op, t, s);
    assert op.DeadLetter? && On(op.m, t, s) ==> op.m in Flying(b, t, s);
    hide *;
    match op
    case Publish(_, _, _, _) => PublishKeeps(c, log, op, t, s);
    case Receive(_, _, _) => ReceiveKeeps(c, log, op, t, s);
    case Complete(_) => CompleteKeeps(c, log, op, t, s);
    case DeadLetter(_) => DeadLetterKeeps(c, log, op, t, s);
    case Drain(_, _) => ReadingKeeps(c, log, op, t, s);
    case Peek(_, _, _, _) => ReadingKeeps(c, log, op, t, s);
  }

  // ---------------------------------------------------------------------------
  // Whole runs
  // ---------------------------------------------------------------------------

  function Run(b: BusState, ops: seq<Op>): BusState
    decreases |ops|
  {
    if ops == [] then b else Run(Apply(b, ops[0]), ops[1..])
  }

  function Record(b: BusState, log: Ledger, ops: seq<Op>, t: string, s: string): Ledger
    decreases |ops|
  {
    if ops == [] then log
    else Record(Apply(b, ops[0]), Note(View(b, t, s), log, ops[0], t, s), ops[1..], t, s)
  }

  /** Every message the run dead-letters was in flight at that moment. */
  predicate Disciplined(b: BusState, ops: seq<Op>)
    decreases |ops|
  {
    ops != [] ==> (ops[0].DeadLetter? ==> ops[0].m in b.inFlight) && Disciplined(Apply(b, ops[0]), ops[1..])
  }

  lemma {:induction false} RunKeeps(b: BusState, log: Ledger, ops: seq<Op>, t: string, s: string)
    requires Routed(b) && Conserved(View(b, t, s), log, t, s) && Disciplined(b, ops)
    ensures Conserved(View(Run(b, ops), t, s), Record(b, log, ops, t, s), t, s)
    decreases |ops|
  {
    if ops != [] {
      OpKeeps(b, log, ops[0], t, s);
      RoutedSteps(b, ops[0]);
      RunKeeps(Apply(b, ops[0]), Note(View(b, t, s), log, ops[0], t, s), ops[1..], t, s);
    }
  }

  // ---------------------------------------------------------------------------
  // Ids, whatever is dead-lettered
  // ---------------------------------------------------------------------------

  /** Every id the topic has seen was known before, or came with a message accepted since. */
  ghost predicate Delivered(c: Channel, accepted: seq<Message>, known: set<string>) {
    c.subscribed && forall id | id in c.seen && id !in known :: exists i | 0 <= i < |accepted| :: accepted[i].messageId == id
  }

  lemma OrderKept(c: Channel, log: Ledger, op: Op, t: string, s: string)
    requires InOrder(c, log.accepted, t, s)
    ensures InOrder(Step(c, op, t, s), Note(c, log, op, t, s).accepted, t, s)
  {
    hide AcceptedAt, DistinctIds;
    if op.Publish? {
      PublishOrder(c, log, op, t, s);
    } else {
      SameOrder(c, Step(c, op, t, s), log.accepted, t, s);
    }
  }

  lemma DeliveredKept(c: Channel, log: Ledger, op: Op, known: set<string>, t: string, s: string)
    requires Delivered(c, log.accepted, known)
    ensures Delivered(Step(c, op, t, s), Note(c, log, op, t, s).accepted, known)
  {
    var c', log' := Step(c, op, t, s), Note(c, log, op, t, s);
    forall id | id in c'.seen && id !in known
      ensures exists i | 0 <= i < |log'.accepted| :: log'.accepted[i].messageId == id
    {
      if id in c.seen {
        var i :| 0 <= i < |log.accepted| && log.accepted[i].messageId == id;
        assert log'.accepted[i].messageId == id;
      } else {
        assert log'.accepted[|log.accepted|].messageId == id;
      }
    }
  }

  /** In every run, disciplined or not, a subscription accepts each id once, and what the topic sees it accepts. */
  lemma {:induction false} RunDelivers(b: BusState, log: Ledger, ops: seq<Op>, known: set<string>, t: string, s: string)
    requires Routed(b) && InOrder(View(b, t, s), log.accepted, t, s)
    ensures InOrder(View(Run(b, ops), t, s), Record(b, log, ops, t, s).accepted, t, s)
    ensures Delivered(View(b, t, s), log.accepted, known) ==>
              Delivered(View(Run(b, ops), t, s), Record(b, log, ops, t, s).accepted, known)
    decreases |ops|
  {
    if ops != [] {
      var c, op := View(b, t, s), ops[0];
      ViewSteps(b, op, t, s);
      RoutedSteps(b, op);
      OrderKept(c, log, op, t, s);
      hide *;
      if Delivered(c, log.accepted, known) {
        DeliveredKept(c, log, op, known, t, s);
      }
      RunDelivers(Apply(b, op), Note(c, log, op, t, s), ops[1..], known, t, s);
      RunFront(b, log, ops, t, s);
    }
  }

  lemma RunFront(b: BusState, log: Ledger, ops: seq<Op>, t: string, s: string)
    requires ops != []
    ensures Run(b, ops) == Run(Apply(b, ops[0]), ops[1..])
    ensures Record(b, log, ops, t, s) == Record(Apply(b, ops[0]), Note(View(b, t, s), log, ops[0], t, s), ops[1..], t, s)
  {
  }

  lemma {:induction false} RunConcat(b: BusState, log: Ledger, xs: seq<Op>, ys: seq<Op>, t: string, s: string)
    ensures Run(b, xs + ys) == Run(Run(b, xs), ys)
    ensures Record(b, log, xs + ys, t, s) == Record(Run(b, xs), Record(b, log, xs, t, s), ys, t, s)
    decreases |xs|
  {
    hide Apply, Note, View;
    if xs == [] {
      assert xs + ys == ys;
    } else {
      assert (xs + ys)[1..] == xs[1..] + ys;
      RunConcat(Apply(b, xs[0]), Note(View(b, t, s), log, xs[0], t, s), xs[1..], ys, t, s);
    }
  }

  /** A message is in one place at most: the places add up to the accepted messages, and those are distinct. */
  lemma OnePlace(c: Channel, log: Ledger, m: Message)
    requires Accounted(c, log) && DistinctIds(log.accepted)
    ensures multiset(log.accepted) == multiset(c.queue) + Settled(c, log)
    ensures multiset(c.queue)[m] + multiset(c.flying)[m] + multiset(c.dlq)[m] + multiset(log.completed)[m]
            + multiset(log.drained)[m] == if m in log.accepted then 1 else 0
  {
    hide DistinctIds, Settled;
    CountOfDistinct(log.accepted, m);
    SplitOff(log.accepted, |log.accepted| - |c.queue|);
    CountSettled(c, log, m);
  }

  lemma SplitOff(s: seq<Message>, k: nat)
    requires k <= |s|
    ensures multiset(s) == multiset(s[..k]) + multiset(s[k..])
  {
    assert s == s[..k] + s[k..];
  }

  lemma CountSettled(c: Channel, log: Ledger, m: Message)
    ensures Settled(c, log)[m]
            == multiset(c.flying)[m] + multiset(c.dlq)[m] + multiset(log.completed)[m] + multiset(log.drained)[m]
  {
  }

  lemma CountOfDistinct(ms: seq<Message>, m: Message)
    requires DistinctIds(ms)
    ensures multiset(ms)[m] == if m in ms then 1 else 0
  {
    SetOfDistinct(ms);
    var members := set x | x in ms;
    assert multiset(members)[m] == if m in members then 1 else 0;
  }

  /**
    After any run from an empty bus, each message a subscription accepted is in exactly one of:
    its queue, in flight, completed, its dead-letter queue, drained from there. The queue is the
    newest part of what was accepted, in the order of publication and numbered without gaps.
   */
  lemma NothingLost(ops: seq<Op>, t: string, s: string, m: Message)
    requires Disciplined(EMPTY_BUS, ops)
    ensures var b, log := Run(EMPTY_BUS, ops), Record(EMPTY_BUS, NEW_LEDGER, ops, t, s);
            var c := View(b, t, s);
            && multiset(c.queue)[m] + multiset(c.flying)[m] + multiset(c.dlq)[m] + multiset(log.completed)[m]
               + multiset(log.drained)[m] == (if m in log.accepted then 1 else 0)
            && InOrder(c, log.accepted, t, s)
            && |c.queue| <= |log.accepted|
            && c.queue == log.accepted[|log.accepted| - |c.queue|..]
  {
    hide Run, Record, View, Settled, AcceptedAt, DistinctIds;
    ConservedStart(t, s);
    RoutedStart();
    RunKeeps(EMPTY_BUS, NEW_LEDGER, ops, t, s);
    OnePlace(View(Run(EMPTY_BUS, ops), t, s), Record(EMPTY_BUS, NEW_LEDGER, ops, t, s), m);
  }

  lemma RoutedStart()
    ensures Routed(EMPTY_BUS)
  {
  }

  // ---------------------------------------------------------------------------
  // Peeking
  // ---------------------------------------------------------------------------

  /** The queue holds consecutive sequence numbers, as every queue of a run does. */
  predicate Consecutive(queue: seq<Message>, first: int) {
    forall i | 0 <= i < |queue| :: queue[i].sequenceNumber == first + i
  }

  lemma QueueIsConsecutive(c: Channel, log: Ledger, t: string, s: string)
    requires Conserved(c, log, t, s)
    ensures Consecutive(c.queue, c.next - |c.queue|)
  {
    var gone := |log.accepted| - |c.queue|;
    forall i | 0 <= i < |c.queue|
      ensures c.queue[i].sequenceNumber == c.next - |c.queue| + i
    {
      assert AcceptedAt(c, log.accepted, gone + i, t, s);
    }
  }

  /** Where a peek from sequence number `from` starts in a queue whose first number is `first`. */
  function PeekStart(length: nat, first: int, from: Option<nat>): (k: nat)
    ensures k <= length
  {
    if from.None? || from.value <= first then 0 else Min(from.value - first, length)
  }

  lemma SuffixOfLonger(queue: seq<Message>, k: nat)
    requires k < |queue|
    ensures queue[k..] == queue[..|queue| - 1][k..] + [queue[|queue| - 1]]
  {
  }

  lemma {:induction false} SinceIsSuffix(queue: seq<Message>, first: int, from: Option<nat>)
    requires Consecutive(queue, first)
    ensures Since(queue, from) == queue[PeekStart(|queue|, first, from)..]
  {
    if queue != [] {
      var shorter := queue[..|queue| - 1];
      var k := PeekStart(|queue|, first, from);
      SinceIsSuffix(shorter, first, from);
      assert queue[|queue| - 1].sequenceNumber == first + |queue| - 1;
      if k < |queue| {
        SuffixOfLonger(queue, k);
        assert k == PeekStart(|shorter|, first, from);
      }
    }
  }

  /** The `n` messages from place `k` on, or as many as there are. */
  function Stretch(s: seq<Message>, k: nat, n: nat): seq<Message>
    requires k <= |s|
  {
    s[k..Min(k + n, |s|)]
  }

  /**
    A peek that resumes from a sequence number reads a contiguous run of the queue: the first `n`
    messages at or after that number, with none skipped.
   */
  lemma PeekIsSlice(c: Channel, log: Ledger, t: string, s: string, n: nat, from: Option<nat>)
    requires Conserved(c, log, t, s)
    ensures var k := PeekStart(|c.queue|, c.next - |c.queue|, from);
            Head(Since(c.queue, from), n) == Stretch(c.queue, k, n)
  {
    hide *;
    QueueIsConsecutive(c, log, t, s);
    SinceIsSuffix(c.queue, c.next - |c.queue|, from);
    HeadOfSuffix(c.queue, PeekStart(|c.queue|, c.next - |c.queue|, from), n);
  }

  lemma HeadOfSuffix(s: seq<Message>, k: nat, n: nat)
    requires k <= |s|
    ensures Head(s[k..], n) == Stretch(s, k, n)
  {
  }

  /** A peek cut to `n` messages keeps the first `n`, or drops the last `-n` of them if `n` is negative. */
  lemma HeadIs(s: seq<Message>, n: int)
    ensures Head(s, n) <= s
    ensures |Head(s, n)| == if n >= |s| then |s| else if n >= 0 then n else if |s| + n > 0 then |s| + n else 0
  {
  }

  /** What lies before the start of that run is exactly what is numbered below `from`. */
  lemma PeekStartsAt(c: Channel, log: Ledger, t: string, s: string, from: Option<nat>, i: nat)
    requires Conserved(c, log, t, s) && i < |c.queue|
    ensures i >= PeekStart(|c.queue|, c.next - |c.queue|, from) <==> from.None? || c.queue[i].sequenceNumber >= from.value
  {
    hide Conserved;
    QueueIsConsecutive(c, log, t, s);
  }
}
