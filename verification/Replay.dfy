/**
  Replaying a dead-letter queue: every message taken from it is published again under a new id.
 */
module Replay {
  import opened Wrappers
  import opened Bus
  import opened Keys
  import L = BusLedger

  // ---------------------------------------------------------------------------
  // Message ids
  // ---------------------------------------------------------------------------

  function Digit(d: nat): (c: char)
    requires d < 10
  {
    ['0', '1', '2', '3', '4', '5', '6', '7', '8', '9'][d]
  }

  function Decimal(n: nat): string {
    if n < 10 then [Digit(n)] else Decimal(n / 10) + [Digit(n % 10)]
  }

  function Undigit(c: char): int {
    c as int - '0' as int
  }

  function Value(s: string): int {
    if s == "" then 0 else 10 * Value(s[..|s| - 1]) + Undigit(s[|s| - 1])
  }

  lemma DigitReads(d: nat)
    requires d < 10
    ensures Undigit(Digit(d)) == d && Digit(d) != ':'
  {
  }

  /** Reading a decimal numeral gives the number back, so different numbers have different numerals. */
  lemma {:induction false} DecimalReads(n: nat)
    ensures Value(Decimal(n)) == n
    ensures ':' !in Decimal(n)
  {
    hide Digit, Undigit;
    DigitReads(n % 10);
    if n < 10 {
      assert Decimal(n)[..0] == "";
    } else {
      DecimalReads(n / 10);
      assert Decimal(n)[..|Decimal(n)| - 1] == Decimal(n / 10);
    }
  }

  function ReplayId(mid: string, suffix: string, index: nat): string {
    mid + ":" + suffix + ":" + Decimal(index)
  }

  /** Ids given in one replay never clash, whatever ids the dead letters had. */
  lemma ReplayIdsDiffer(mid1: string, mid2: string, suffix: string, i: nat, j: nat)
    requires i != j
    ensures ReplayId(mid1, suffix, i) != ReplayId(mid2, suffix, j)
  {
    DecimalReads(i);
    DecimalReads(j);
    if ReplayId(mid1, suffix, i) == ReplayId(mid2, suffix, j) {
      TailAfterColon(mid1 + ":" + suffix, mid2 + ":" + suffix, Decimal(i), Decimal(j));
    }
  }

  // ---------------------------------------------------------------------------
  // The replay
  // ---------------------------------------------------------------------------

  /** The bus after the first messages of a drained dead-letter queue were published again. */
  function Republished(b: BusState, topic: string, msgs: seq<Message>, suffix: string): BusState {
    if msgs == [] then b
    else
      var m := msgs[|msgs| - 1];
      var before := Republished(b, topic, msgs[..|msgs| - 1], suffix);
      Completed(Published(before, topic, m.body, ReplayId(m.messageId, suffix, |msgs|), m.correlationId), m)
  }

  method ReplayDeadLetters(bus: InMemoryBus, topic: string, subscription: string, suffix: string) returns (replayed: nat)
    modifies bus
    ensures var (drained, msgs) := Drained(old(bus.State()), topic, subscription);
            replayed == |msgs| && bus.State() == Republished(drained, topic, msgs, suffix)
  {
    var messages := bus.ReceiveDeadLetter(topic, subscription);
    ghost var drained := bus.State();
    for index := 1 to |messages| + 1
      invariant bus.State() == Republished(drained, topic, messages[..index - 1], suffix)
    {
      var message := messages[index - 1];
      bus.Publish(topic, message.body, Some(ReplayId(message.messageId, suffix, index)), message.correlationId, "");
      bus.Complete(message);
      assert messages[..index][..index - 1] == messages[..index - 1];
    }
    assert messages[..|messages|] == messages;
    replayed := |messages|;
  }

  // ---------------------------------------------------------------------------
  // What it puts back on a queue
  // ---------------------------------------------------------------------------

  predicate Unseen(b: BusState, topic: string, msgs: seq<Message>, suffix: string, i: nat)
    requires i < |msgs|
  {
    ReplayId(msgs[i].messageId, suffix, i + 1) !in b.Seen(topic)
  }

  /** Copies, for one subscription, of the messages whose new id the topic had not seen, in order. */
  function Resent(b: BusState, topic: string, sub: string, msgs: seq<Message>, suffix: string): seq<Message> {
    if msgs == [] then []
    else
      var n := |msgs| - 1;
      var before := Resent(b, topic, sub, msgs[..n], suffix);
      if Unseen(b, topic, msgs, suffix, n) then
        before + [Message(topic, sub, msgs[n].body, ReplayId(msgs[n].messageId, suffix, n + 1), msgs[n].correlationId,
                          b.Next(topic) + |before|)]
      else before
  }

  function Ids(msgs: seq<Message>, suffix: string): set<string> {
    if msgs == [] then {}
    else Ids(msgs[..|msgs| - 1], suffix) + {ReplayId(msgs[|msgs| - 1].messageId, suffix, |msgs|)}
  }

  lemma {:induction false} LaterIdIsNew(msgs: seq<Message>, suffix: string, mid: string, index: nat)
    requires index > |msgs|
    ensures ReplayId(mid, suffix, index) !in Ids(msgs, suffix)
  {
    if msgs != [] {
      LaterIdIsNew(msgs[..|msgs| - 1], suffix, mid, index);
      ReplayIdsDiffer(mid, msgs[|msgs| - 1].messageId, suffix, index, |msgs|);
    }
  }

  /** What publishing an id does to one subscription of its topic. */
  lemma PublishedThere(b: BusState, topic: string, sub: string, body: string, id: string, corr: Option<string>, done: Message)
    ensures var b' := Completed(Published(b, topic, body, id, corr), done);
            && (sub in b'.QueuesOf(topic) <==> sub in b.QueuesOf(topic))
            && b'.dlqs == b.dlqs
            && b'.Seen(topic) == b.Seen(topic) + {id}
            && b'.Next(topic) == b.Next(topic) + (if id in b.Seen(topic) then 0 else 1)
            && b'.Queue(topic, sub)
               == b.Queue(topic, sub) + (if id in b.Seen(topic) || sub !in b.QueuesOf(topic) then []
                                         else [Message(topic, sub, body, id, corr, b.Next(topic))])
  {
    if id !in b.Seen(topic) {
      var b' := Completed(Published(b, topic, body, id, corr), done);
      assert b'.QueuesOf(topic) == WithCopies(b.QueuesOf(topic), topic, body, id, corr, b.Next(topic));
    } else {
      assert b.Seen(topic) == b.Seen(topic) + {id};
    }
  }

  /** Subscription `sub`'s queue gains exactly the unseen messages, in order, numbered on from where the topic was. */
  lemma {:induction false} ReplayAppends(b: BusState, topic: string, sub: string, msgs: seq<Message>, suffix: string)
    ensures var b' := Republished(b, topic, msgs, suffix);
            && (sub in b'.QueuesOf(topic) <==> sub in b.QueuesOf(topic))
            && b'.Queue(topic, sub)
               == b.Queue(topic, sub) + (if sub in b.QueuesOf(topic) then Resent(b, topic, sub, msgs, suffix) else [])
            && b'.Next(topic) == b.Next(topic) + |Resent(b, topic, sub, msgs, suffix)|
            && b'.dlqs == b.dlqs
            && b'.Seen(topic) == b.Seen(topic) + Ids(msgs, suffix)
  {
    hide Published, WithCopies, Completed, ReplayId, BusState.QueuesOf, BusState.Queue, BusState.Next, BusState.Seen;
    if msgs == [] {
      assert b.Queue(topic, sub) + [] == b.Queue(topic, sub);
    } else {
      var n := |msgs| - 1;
      var m := msgs[n];
      var before := Republished(b, topic, msgs[..n], suffix);
      ReplayAppends(b, topic, sub, msgs[..n], suffix);
      LaterIdIsNew(msgs[..n], suffix, m.messageId, n + 1);
      PublishedThere(before, topic, sub, m.body, ReplayId(m.messageId, suffix, n + 1), m.correlationId, m);
    }
  }

  /** Every message comes back, whole and in order, exactly when the topic had seen none of the new ids. */
  lemma {:induction false} ResentAll(b: BusState, topic: string, sub: string, msgs: seq<Message>, suffix: string)
    ensures |Resent(b, topic, sub, msgs, suffix)| <= |msgs|
    ensures |Resent(b, topic, sub, msgs, suffix)| == |msgs| <==> forall i | 0 <= i < |msgs| :: Unseen(b, topic, msgs, suffix, i)
    ensures (forall i | 0 <= i < |msgs| :: Unseen(b, topic, msgs, suffix, i)) ==>
              forall i | 0 <= i < |msgs| :: ComesBack(b, topic, sub, msgs, suffix, i)
  {
    hide ReplayId, BusState.Seen, BusState.Next;
    if msgs != [] {
      var n := |msgs| - 1;
      ResentAll(b, topic, sub, msgs[..n], suffix);
      assert forall i | 0 <= i < n :: Unseen(b, topic, msgs, suffix, i) == Unseen(b, topic, msgs[..n], suffix, i);
      if forall i | 0 <= i < |msgs| :: Unseen(b, topic, msgs, suffix, i) {
        forall i | 0 <= i < |msgs|
          ensures ComesBack(b, topic, sub, msgs, suffix, i)
        {
          assert i < n ==> ComesBack(b, topic, sub, msgs[..n], suffix, i);
        }
      }
    }
  }

  /** Dead letter `i` stands at place `i` of what is sent again, with the next number. */
  predicate ComesBack(b: BusState, topic: string, sub: string, msgs: seq<Message>, suffix: string, i: nat)
    requires i < |msgs|
  {
    var resent := Resent(b, topic, sub, msgs, suffix);
    && i < |resent|
    && resent[i] == Message(topic, sub, msgs[i].body, ReplayId(msgs[i].messageId, suffix, i + 1), msgs[i].correlationId,
                            b.Next(topic) + i)
  }

  lemma {:induction false} ResentDependsOnTopic(b: BusState, b': BusState, topic: string, sub: string, msgs: seq<Message>, suffix: string)
    requires b'.Seen(topic) == b.Seen(topic) && b'.Next(topic) == b.Next(topic)
    ensures Resent(b', topic, sub, msgs, suffix) == Resent(b, topic, sub, msgs, suffix)
  {
    if msgs != [] {
      ResentDependsOnTopic(b, b', topic, sub, msgs[..|msgs| - 1], suffix);
    }
  }

  /**
    Replaying empties the dead-letter queue and appends to the subscription's queue. Every dead
    letter comes back, in order, exactly when none of the new ids was seen before.
   */
  lemma ReplayRestores(b: BusState, topic: string, sub: string, suffix: string)
    requires sub in b.QueuesOf(topic)
    ensures var (drained, msgs) := Drained(b, topic, sub);
            var b' := Republished(drained, topic, msgs, suffix);
            var resent := Resent(b, topic, sub, msgs, suffix);
            var allNew := forall i | 0 <= i < |msgs| :: Unseen(b, topic, msgs, suffix, i);
            && b'.Dlq(topic, sub) == []
            && b'.Queue(topic, sub) == b.Queue(topic, sub) + resent
            && (|resent| == |msgs| <==> allNew)
            && (allNew ==> forall i | 0 <= i < |msgs| :: ComesBack(b, topic, sub, msgs, suffix, i))
  {
    var (drained, msgs) := Drained(b, topic, sub);
    WithDlqOnlyThere(b, topic, sub, [], topic, sub);
    ReplayAppends(drained, topic, sub, msgs, suffix);
    ResentDependsOnTopic(b, drained, topic, sub, msgs, suffix);
    ResentAll(b, topic, sub, msgs, suffix);
  }

  // ---------------------------------------------------------------------------
  // Two replays with one suffix
  // ---------------------------------------------------------------------------

  /** Under one suffix, only the same message at the same place gets the same new id. */
  lemma SameReplayId(mid1: string, mid2: string, suffix: string, i: nat, j: nat)
    ensures ReplayId(mid1, suffix, i) == ReplayId(mid2, suffix, j) <==> mid1 == mid2 && i == j
  {
    if ReplayId(mid1, suffix, i) == ReplayId(mid2, suffix, j) {
      if i != j {
        ReplayIdsDiffer(mid1, mid2, suffix, i, j);
      }
      var tail := ":" + suffix + ":" + Decimal(i);
      assert ReplayId(mid1, suffix, i) == mid1 + tail && ReplayId(mid2, suffix, i) == mid2 + tail;
      SamePrefix(mid1, mid2, tail);
    }
  }

  lemma {:induction false} InIds(msgs: seq<Message>, suffix: string, mid: string, i: nat)
    ensures ReplayId(mid, suffix, i + 1) in Ids(msgs, suffix) <==> i < |msgs| && msgs[i].messageId == mid
  {
    hide ReplayId;
    if msgs != [] {
      var n := |msgs| - 1;
      InIds(msgs[..n], suffix, mid, i);
      SameReplayId(mid, msgs[n].messageId, suffix, i + 1, n + 1);
    }
  }

  /**
    Replaying a second dead-letter queue of the topic with the same suffix: a message is published
    again exactly when its new id was unseen and the first replay had not the same message at the
    same place. So one dead-lettered in both queues comes back from the first replay only.
   */
  lemma TwoReplays(b: BusState, topic: string, msgs1: seq<Message>, msgs2: seq<Message>, suffix: string, i: nat)
    requires i < |msgs2|
    ensures Unseen(Republished(b, topic, msgs1, suffix), topic, msgs2, suffix, i)
            <==> Unseen(b, topic, msgs2, suffix, i) && !(i < |msgs1| && msgs1[i].messageId == msgs2[i].messageId)
  {
    ReplayAppends(b, topic, "", msgs1, suffix);
    InIds(msgs1, suffix, msgs2[i].messageId, i);
  }

  // ---------------------------------------------------------------------------
  // Replay as a run of bus operations
  // ---------------------------------------------------------------------------

  function RepublishOps(topic: string, msgs: seq<Message>, suffix: string): seq<L.Op> {
    if msgs == [] then []
    else
      var m := msgs[|msgs| - 1];
      RepublishOps(topic, msgs[..|msgs| - 1], suffix)
      + [L.Publish(topic, m.body, ReplayId(m.messageId, suffix, |msgs|), m.correlationId), L.Complete(m)]
  }

  lemma {:induction false} RunTwice(b: BusState, xs: seq<L.Op>, ys: seq<L.Op>)
    ensures L.Run(b, xs + ys) == L.Run(L.Run(b, xs), ys)
    ensures L.Disciplined(b, xs) && L.Disciplined(L.Run(b, xs), ys) ==> L.Disciplined(b, xs + ys)
    decreases |xs|
  {
    hide L.Apply;
    if xs == [] {
      assert xs + ys == ys;
    } else {
      assert (xs + ys)[1..] == xs[1..] + ys;
      RunTwice(L.Apply(b, xs[0]), xs[1..], ys);
    }
  }

  lemma {:induction false} RepublishIsRun(b: BusState, topic: string, msgs: seq<Message>, suffix: string)
    ensures L.Run(b, RepublishOps(topic, msgs, suffix)) == Republished(b, topic, msgs, suffix)
    ensures L.Disciplined(b, RepublishOps(topic, msgs, suffix))
  {
    hide Published, Completed;
    if msgs != [] {
      var m := msgs[|msgs| - 1];
      var fewer := RepublishOps(topic, msgs[..|msgs| - 1], suffix);
      var two := [L.Publish(topic, m.body, ReplayId(m.messageId, suffix, |msgs|), m.correlationId), L.Complete(m)];
      RepublishIsRun(b, topic, msgs[..|msgs| - 1], suffix);
      RunTwice(b, fewer, two);
      TwoOps(L.Run(b, fewer), two);
    }
  }

  lemma TwoOps(b: BusState, ops: seq<L.Op>)
    requires |ops| == 2 && ops[0].Publish? && ops[1].Complete?
    ensures L.Run(b, ops) == L.Apply(L.Apply(b, ops[0]), ops[1])
    ensures L.Disciplined(b, ops)
  {
    hide L.Apply;
    var b' := L.Apply(b, ops[0]);
    assert ops[1..] == [ops[1]];
    OneOp(b', ops[1]);
    assert L.Run(b, ops) == L.Run(b', ops[1..]);
  }

  lemma OneOp(b: BusState, op: L.Op)
    ensures L.Run(b, [op]) == L.Apply(b, op)
    ensures !op.DeadLetter? ==> L.Disciplined(b, [op])
  {
    hide L.Apply;
    assert [op][1..] == [];
  }

  /** A replay keeps the accounts of every subscription balanced: what it drains and what it publishes are both on the books. */
  lemma ReplayConserves(b: BusState, log: L.Ledger, topic: string, sub: string, suffix: string, t: string, s: string)
    requires L.Routed(b) && L.Conserved(L.View(b, t, s), log, t, s)
    ensures var (drained, msgs) := Drained(b, topic, sub);
            var ops := [L.Drain(topic, sub)] + RepublishOps(topic, msgs, suffix);
            && L.Run(b, ops) == Republished(drained, topic, msgs, suffix)
            && L.Conserved(L.View(L.Run(b, ops), t, s), L.Record(b, log, ops, t, s), t, s)
  {
    hide L.Conserved, L.View, L.Record, L.Routed, RepublishOps, Republished;
    var (drained, msgs) := Drained(b, topic, sub);
    var first := [L.Drain(topic, sub)];
    RepublishIsRun(drained, topic, msgs, suffix);
    OneOp(b, L.Drain(topic, sub));
    RunTwice(b, first, RepublishOps(topic, msgs, suffix));
    L.RunKeeps(b, log, first + RepublishOps(topic, msgs, suffix), t, s);
  }
}
