/**
  The in-memory message bus: per-subscription queues and dead-letter queues, duplicate
  detection per topic, and messages in flight between receive and settlement.
 */
module Bus {
  import opened Wrappers

  datatype Message = Message(
    topic: string, subscription: string, body: string, messageId: string,
    correlationId: Option<string>, sequenceNumber: nat)

  /** The bus as a value: what each operation does to it is stated on this type. */
  datatype BusState = BusState(
    queues: map<string, map<string, seq<Message>>>,
    dlqs: map<string, map<string, seq<Message>>>,
    seenIds: map<string, set<string>>,
    inFlight: set<Message>,
    nextSequence: map<string, nat>)
  {
    function QueuesOf(topic: string): map<string, seq<Message>> {
      if topic in queues then queues[topic] else map[]
    }

    function Queue(topic: string, sub: string): seq<Message> {
      if sub in QueuesOf(topic) then QueuesOf(topic)[sub] else []
    }

    function DlqsOf(topic: string): map<string, seq<Message>> {
      if topic in dlqs then dlqs[topic] else map[]
    }

    function Dlq(topic: string, sub: string): seq<Message> {
      if sub in DlqsOf(topic) then DlqsOf(topic)[sub] else []
    }

    function Seen(topic: string): set<string> {
      if topic in seenIds then seenIds[topic] else {}
    }

    function Next(topic: string): nat {
      if topic in nextSequence then nextSequence[topic] else 1
    }

    function WithQueue(topic: string, sub: string, queue: seq<Message>): BusState {
      this.(queues := queues[topic := QueuesOf(topic)[sub := queue]])
    }

    function WithDlq(topic: string, sub: string, dlq: seq<Message>): BusState {
      this.(dlqs := dlqs[topic := DlqsOf(topic)[sub := dlq]])
    }
  }

  lemma WithQueueOnlyThere(b: BusState, topic: string, sub: string, queue: seq<Message>, t: string, s: string)
    ensures var b' := b.WithQueue(topic, sub, queue);
            && b'.Queue(t, s) == (if topic == t && sub == s then queue else b.Queue(t, s))
            && (s in b'.QueuesOf(t) <==> ((topic == t && sub == s) || s in b.QueuesOf(t)))
            && b'.Dlq(t, s) == b.Dlq(t, s)
  {
  }

  lemma WithDlqOnlyThere(b: BusState, topic: string, sub: string, dlq: seq<Message>, t: string, s: string)
    ensures var b' := b.WithDlq(topic, sub, dlq);
            && b'.Dlq(t, s) == (if topic == t && sub == s then dlq else b.Dlq(t, s))
            && b'.Queue(t, s) == b.Queue(t, s)
            && b'.QueuesOf(t) == b.QueuesOf(t)
  {
  }

  const EMPTY_BUS := BusState(map[], map[], map[], {}, map[])

  // ---------------------------------------------------------------------------
  // What the operations do
  // ---------------------------------------------------------------------------

  /** Every subscription's queue with a copy of one message appended. */
  function WithCopies(subs: map<string, seq<Message>>, topic: string, body: string, mid: string,
                      corr: Option<string>, number: nat): map<string, seq<Message>> {
    map s | s in subs :: subs[s] + [Message(topic, s, body, mid, corr, number)]
  }

  /** Publishing an id already seen on the topic changes nothing; otherwise every known subscription gets a copy. */
  function Published(b: BusState, topic: string, body: string, mid: string, corr: Option<string>): BusState {
    if mid in b.Seen(topic) then b
    else
      b.(seenIds := b.seenIds[topic := b.Seen(topic) + {mid}],
         nextSequence := b.nextSequence[topic := b.Next(topic) + 1],
         queues := b.queues[topic := WithCopies(b.QueuesOf(topic), topic, body, mid, corr, b.Next(topic))])
  }

  function Min(a: int, b: int): int {
    if a < b then a else b
  }

  /** How many messages a receive takes. */
  function Taken(queue: seq<Message>, max: int): (k: nat)
    ensures k <= |queue|
  {
    if max <= 0 then 0 else Min(max, |queue|)
  }

  function Received(b: BusState, topic: string, sub: string, max: int): (BusState, seq<Message>) {
    var queue := b.Queue(topic, sub);
    var k := Taken(queue, max);
    (b.WithQueue(topic, sub, queue[k..]).(inFlight := b.inFlight + set m | m in queue[..k]), queue[..k])
  }

  function Completed(b: BusState, m: Message): BusState {
    b.(inFlight := b.inFlight - {m})
  }

  function DeadLettered(b: BusState, m: Message): BusState {
    b.WithDlq(m.topic, m.subscription, b.Dlq(m.topic, m.subscription) + [m]).(inFlight := b.inFlight - {m})
  }

  function Drained(b: BusState, topic: string, sub: string): (BusState, seq<Message>) {
    (b.WithDlq(topic, sub, []), b.Dlq(topic, sub))
  }

  /** The messages numbered `from` or more, in order. */
  function Since(queue: seq<Message>, from: Option<nat>): seq<Message> {
    if queue == [] then []
    else
      var last := queue[|queue| - 1];
      Since(queue[..|queue| - 1], from) + (if from.None? || from.value <= last.sequenceNumber then [last] else [])
  }

  /** Python's `messages[:n]`. */
  function Head<T>(s: seq<T>, n: int): seq<T> {
    if n >= |s| then s else if n >= 0 then s[..n] else if |s| + n <= 0 then [] else s[..|s| + n]
  }

  /** Looking up a queue creates the subscription, so even a peek makes later publishes reach it. */
  function Subscribed(b: BusState, topic: string, sub: string): BusState {
    b.WithQueue(topic, sub, b.Queue(topic, sub))
  }

  function Peeked(b: BusState, topic: string, sub: string, n: int, from: Option<nat>): (BusState, seq<Message>) {
    (Subscribed(b, topic, sub), Head(Since(b.Queue(topic, sub), from), n))
  }

  /** Part of the way through the fan-out: the subscriptions in `todo` still lack their copy of `msg`. */
  ghost predicate PartlyFanned(subs: map<string, seq<Message>>, todo: set<string>, updated: map<string, seq<Message>>,
                               m: Message) {
    && todo <= subs.Keys
    && updated.Keys == subs.Keys
    && (forall s | s in subs :: updated[s] == if s in todo then subs[s] else subs[s] + [m.(subscription := s)])
  }

  lemma FanOutStep(subs: map<string, seq<Message>>, todo: set<string>, updated: map<string, seq<Message>>, m: Message,
                   sub: string)
    requires PartlyFanned(subs, todo, updated, m) && sub in todo
    ensures sub in updated
    ensures PartlyFanned(subs, todo - {sub}, updated[sub := updated[sub] + [m.(subscription := sub)]], m)
  {
  }

  lemma FanOutEnds(subs: map<string, seq<Message>>, updated: map<string, seq<Message>>, m: Message)
    requires PartlyFanned(subs, {}, updated, m)
    ensures updated == WithCopies(subs, m.topic, m.body, m.messageId, m.correlationId, m.sequenceNumber)
  {
  }

  method FanOut(subs: map<string, seq<Message>>, m: Message) returns (updated: map<string, seq<Message>>)
    ensures updated == WithCopies(subs, m.topic, m.body, m.messageId, m.correlationId, m.sequenceNumber)
  {
    var todo := subs.Keys;
    updated := subs;
    assert PartlyFanned(subs, todo, updated, m);
    hide *;
    while todo != {}
      invariant PartlyFanned(subs, todo, updated, m)
      decreases |todo|
    {
      var sub :| sub in todo;
      FanOutStep(subs, todo, updated, m, sub);
      updated := updated[sub := updated[sub] + [m.(subscription := sub)]];
      todo := todo - {sub};
    }
    FanOutEnds(subs, updated, m);
  }

  // ---------------------------------------------------------------------------
  // The object
  // ---------------------------------------------------------------------------

  class InMemoryBus {
    var queues: map<string, map<string, seq<Message>>>
    var dlqs: map<string, map<string, seq<Message>>>
    var seenIds: map<string, set<string>>
    var inFlight: set<Message>
    var nextSequence: map<string, nat>

    function State(): BusState
      reads this
    {
      BusState(queues, dlqs, seenIds, inFlight, nextSequence)
    }

    constructor ()
      ensures State() == EMPTY_BUS
    {
      queues, dlqs, seenIds, inFlight, nextSequence := map[], map[], map[], {}, map[];
    }

    /** `uuid` stands for the id drawn when the caller gives none. */
    method Publish(topic: string, body: string, messageId: Option<string>, correlationId: Option<string>, uuid: string)
      modifies this
      ensures var mid := if messageId.Some? && messageId.value != "" then messageId.value else uuid;
              State() == Published(old(State()), topic, body, mid, correlationId)
    {
      var mid := if messageId.Some? && messageId.value != "" then messageId.value else uuid;
      if mid in State().Seen(topic) {
        return;
      }
      var subs := State().QueuesOf(topic);
      var number := State().Next(topic);
      seenIds := seenIds[topic := State().Seen(topic) + {mid}];
      nextSequence := nextSequence[topic := number + 1];
      var updated := FanOut(subs, Message(topic, "", body, mid, correlationId, number));
      queues := queues[topic := updated];
    }

    method Receive(topic: string, subscription: string, maxMessages: int) returns (msgs: seq<Message>)
      modifies this
      ensures (State(), msgs) == Received(old(State()), topic, subscription, maxMessages)
      ensures var left := State().Queue(topic, subscription);
              && old(State()).Queue(topic, subscription) == msgs + left
              && (|msgs| <= maxMessages || msgs == [])
              && (|msgs| < maxMessages ==> left == [])
    {
      ghost var before := State();
      var queue := State().Queue(topic, subscription);
      ghost var all := queue;
      var flying := inFlight;
      msgs := [];
      while queue != [] && |msgs| < maxMessages
        invariant |msgs| <= |all| && msgs == all[..|msgs|] && queue == all[|msgs|..]
        invariant |msgs| <= Taken(all, maxMessages)
        invariant flying == before.inFlight + set m | m in msgs
      {
        var msg := queue[0];
        queue := queue[1..];
        flying := flying + {msg};
        msgs := msgs + [msg];
      }
      inFlight := flying;
      queues := queues[topic := State().QueuesOf(topic)[subscription := queue]];
    }

    method Complete(msg: Message)
      modifies this
      ensures State() == Completed(old(State()), msg)
    {
      inFlight := inFlight - {msg};
    }

    method DeadLetter(msg: Message)
      modifies this
      ensures State() == DeadLettered(old(State()), msg)
    {
      inFlight := inFlight - {msg};
      var dlq := State().Dlq(msg.topic, msg.subscription) + [msg];
      dlqs := dlqs[msg.topic := State().DlqsOf(msg.topic)[msg.subscription := dlq]];
    }

    method ReceiveDeadLetter(topic: string, subscription: string) returns (msgs: seq<Message>)
      modifies this
      ensures (State(), msgs) == Drained(old(State()), topic, subscription)
    {
      msgs := State().Dlq(topic, subscription);
      dlqs := dlqs[topic := State().DlqsOf(topic)[subscription := []]];
    }

    method Peek(topic: string, subscription: string, n: int, from: Option<nat>) returns (msgs: seq<Message>)
      modifies this
      ensures (State(), msgs) == Peeked(old(State()), topic, subscription, n, from)
    {
      var queue := State().Queue(topic, subscription);
      queues := queues[topic := State().QueuesOf(topic)[subscription := queue]];
      msgs := [];
      for i := 0 to |queue|
        invariant msgs == Since(queue[..i], from)
      {
        assert queue[..i + 1][..i] == queue[..i];
        if from.None? || from.value <= queue[i].sequenceNumber {
          msgs := msgs + [queue[i]];
        }
      }
      assert queue[..|queue|] == queue;
      msgs := Head(msgs, n);
    }
  }
}
