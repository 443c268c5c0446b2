/**
  The live stream broker: one bounded queue per connected client, filled with the messages whose
  symbol the client asked for. A client that does not read loses its oldest messages first.
 */
module LiveStream {
  import opened Wrappers
  import opened Text

  const MAX_QUEUE := 1000

  datatype Envelope = Envelope(event: string, topic: string, symbol: string, payload: string)

  /** A client: the symbols it follows and the messages waiting for it. */
  datatype Client = Client(symbols: set<string>, queue: seq<Envelope>)

  datatype Broker = Broker(clients: map<string, Client>, dropped: nat)

  const NEW_BROKER := Broker(map[], 0)

  // ---------------------------------------------------------------------------
  // What the operations do
  // ---------------------------------------------------------------------------

  /** The symbols of a client's frame, stripped and upper-cased, without blanks. */
  function Normalised(symbols: seq<string>, upper: string -> string): set<string> {
    set s | s in symbols && Strip(s) != "" :: upper(Strip(s))
  }

  /** A bounded put: on overflow the oldest message makes room. */
  function Pushed(queue: seq<Envelope>, e: Envelope): seq<Envelope> {
    if |queue| < MAX_QUEUE then queue + [e] else queue[1..] + [e]
  }

  predicate Wants(c: Client, e: Envelope) {
    e.symbol in c.symbols
  }

  function Served(c: Client, e: Envelope): Client {
    if Wants(c, e) then c.(queue := Pushed(c.queue, e)) else c
  }

  /** The clients that have to drop a message to take this one. */
  function Overflowing(clients: map<string, Client>, e: Envelope): set<string> {
    set id | id in clients && Wants(clients[id], e) && |clients[id].queue| >= MAX_QUEUE
  }

  function FannedOut(b: Broker, e: Envelope): Broker {
    Broker(map id | id in b.clients :: Served(b.clients[id], e), b.dropped + |Overflowing(b.clients, e)|)
  }

  // ---------------------------------------------------------------------------
  // The object
  // ---------------------------------------------------------------------------

  class LiveStreamBroker {
    var subscribers: map<string, Client>
    var droppedStreamMessages: nat

    function State(): Broker
      reads this
    {
      Broker(subscribers, droppedStreamMessages)
    }

    constructor ()
      ensures State() == NEW_BROKER
    {
      subscribers, droppedStreamMessages := map[], 0;
    }

    method Register(id: string)
      modifies this
      ensures State() == old(State()).(clients := old(State()).clients[id := Client({}, [])])
    {
      subscribers := subscribers[id := Client({}, [])];
    }

    method UpdateSymbols(id: string, symbols: seq<string>, upper: string -> string) returns (ok: bool)
      modifies this
      ensures ok <==> id in old(State()).clients
      ensures State() == if ok then old(State()).(clients := 
                                     old(State()).clients[id := old(State()).clients[id].(symbols := Normalised(symbols, upper))])
                         else old(State())
      ensures ok ==> forall t :: t in State().clients[id].symbols
                              <==> exists s :: s in symbols && Strip(s) != "" && t == upper(Strip(s))
    {
      if id !in subscribers {
        return false;
      }
      subscribers := subscribers[id := subscribers[id].(symbols := Normalised(symbols, upper))];
      ok := true;
    }

    method Unregister(id: string)
      modifies this
      ensures State() == old(State()).(clients := old(State()).clients - {id})
    {
      subscribers := subscribers - {id};
    }

    /** A client takes its oldest waiting message. */
    method Read(id: string) returns (e: Option<Envelope>)
      modifies this
      ensures var b := old(State());
              if id in b.clients && b.clients[id].queue != [] then
                && e == Some(b.clients[id].queue[0])
                && State() == b.(clients := b.clients[id := b.clients[id].(queue := b.clients[id].queue[1..])])
              else e.None? && State() == b
    {
      if id !in subscribers || subscribers[id].queue == [] {
        return None;
      }
      var queue := subscribers[id].queue;
      e := Some(queue[0]);
      subscribers := subscribers[id := subscribers[id].(queue := queue[1..])];
    }

    method Fanout(e: Envelope)
      modifies this
      ensures State() == FannedOut(old(State()), e)
      ensures EachServed(old(subscribers), subscribers, e)
    {
      hide EachServed, Partway, Overflowing, FannedOut, Served;
      ghost var before := State();
      var todo := subscribers.Keys;
      FanStart(before, e);
      while todo != {}
        invariant Partway(before, State(), todo, e)
        decreases |todo|
      {
        var id :| id in todo;
        FanStep(before, State(), todo, e, id);
        var client := subscribers[id];
        if e.symbol in client.symbols {
          var queue := client.queue;
          if |queue| >= MAX_QUEUE {
            droppedStreamMessages := droppedStreamMessages + 1;
            queue := queue[1..];
          }
          subscribers := subscribers[id := client.(queue := queue + [e])];
        }
        todo := todo - {id};
      }
      FanEnd(before, State(), e);
      FannedTo(before, e);
    }
  }

  /** The fan-out loop part of the way through: the clients in `todo` are still to be served. */
  ghost predicate Partway(before: Broker, now: Broker, todo: set<string>, e: Envelope) {
    && todo <= before.clients.Keys
    && now.clients.Keys == before.clients.Keys
    && (forall id | id in before.clients ::
          now.clients[id] == if id in todo then before.clients[id] else Served(before.clients[id], e))
    && now.dropped == before.dropped + |Overflowing(before.clients, e) - todo|
  }

  lemma FanStart(b: Broker, e: Envelope)
    ensures Partway(b, b, b.clients.Keys, e)
  {
    assert Overflowing(b.clients, e) - b.clients.Keys == {};
  }

  function One(b: Broker, e: Envelope, id: string): Broker
    requires id in b.clients
  {
    var c := b.clients[id];
    if e.symbol in c.symbols then
      Broker(b.clients[id := c.(queue := (if |c.queue| >= MAX_QUEUE then c.queue[1..] else c.queue) + [e])],
             if |c.queue| >= MAX_QUEUE then b.dropped + 1 else b.dropped)
    else b
  }

  lemma FanStep(before: Broker, now: Broker, todo: set<string>, e: Envelope, id: string)
    requires Partway(before, now, todo, e) && id in todo
    ensures id in now.clients
    ensures Partway(before, One(now, e, id), todo - {id}, e)
  {
    var over := Overflowing(before.clients, e);
    if id in over {
      assert over - (todo - {id}) == (over - todo) + {id};
    } else {
      assert over - (todo - {id}) == over - todo;
    }
  }

  lemma FanEnd(before: Broker, now: Broker, e: Envelope)
    requires Partway(before, now, {}, e)
    ensures now == FannedOut(before, e)
  {
    assert Overflowing(before.clients, e) - {} == Overflowing(before.clients, e);
  }

  /** Exactly the clients that follow the message's symbol have it, as their newest, and none waits for more than allowed. */
  ghost predicate EachServed(before: map<string, Client>, after: map<string, Client>, e: Envelope) {
    && before.Keys == after.Keys
    && forall id | id in before ::
         var was := before[id];
         after[id] == if e.symbol !in was.symbols then was
                      else was.(queue := (if |was.queue| < MAX_QUEUE then was.queue else was.queue[1..]) + [e])
  }

  lemma FannedTo(b: Broker, e: Envelope)
    ensures EachServed(b.clients, FannedOut(b, e).clients, e)
  {
  }

  // ---------------------------------------------------------------------------
  // Whole runs, seen by one client
  // ---------------------------------------------------------------------------

  datatype Op =
    | Register(id: string)
    | UpdateSymbols(id: string, symbols: set<string>)
    | Unregister(id: string)
    | Read(id: string)
    | Fanout(e: Envelope)

  function Apply(b: Broker, op: Op): Broker {
    match op
    case Register(id) => b.(clients := b.clients[id := Client({}, [])])
    case UpdateSymbols(id, symbols) =>
      if id in b.clients then b.(clients := b.clients[id := b.clients[id].(symbols := symbols)]) else b
    case Unregister(id) => b.(clients := b.clients - {id})
    case Read(id) =>
      if id in b.clients && b.clients[id].queue != [] then
        b.(clients := b.clients[id := b.clients[id].(queue := b.clients[id].queue[1..])])
      else b
    case Fanout(e) => FannedOut(b, e)
  }

  /** What happened to a client since it registered: what matched its symbols when it was fanned out, what it read, what it lost. */
  datatype Tally = Tally(enqueued: seq<Envelope>, consumed: seq<Envelope>, lost: nat)

  const NEW_TALLY := Tally([], [], 0)

  function Note(b: Broker, t: Tally, op: Op, me: string): Tally {
    match op
    case Register(id) => if id == me then NEW_TALLY else t
    case Read(id) =>
      if id == me && me in b.clients && b.clients[me].queue != [] then
        t.(consumed := t.consumed + [b.clients[me].queue[0]])
      else t
    case Fanout(e) =>
      if me in b.clients && Wants(b.clients[me], e) then
        t.(enqueued := t.enqueued + [e], lost := if me in Overflowing(b.clients, e) then t.lost + 1 else t.lost)
      else t
    case _ => t
  }

  function Run(b: Broker, ops: seq<Op>): Broker {
    if ops == [] then b else Apply(Run(b, ops[..|ops| - 1]), ops[|ops| - 1])
  }

  function Record(b: Broker, ops: seq<Op>, me: string): Tally {
    if ops == [] then NEW_TALLY
    else Note(Run(b, ops[..|ops| - 1]), Record(b, ops[..|ops| - 1], me), ops[|ops| - 1], me)
  }

  predicate IsSubsequence(a: seq<Envelope>, b: seq<Envelope>) {
    a == []
    || (b != []
        && ((a[|a| - 1] == b[|b| - 1] && IsSubsequence(a[..|a| - 1], b[..|b| - 1])) || IsSubsequence(a, b[..|b| - 1])))
  }

  lemma SubsequenceSnoc(a: seq<Envelope>, b: seq<Envelope>, x: Envelope)
    requires IsSubsequence(a, b)
    ensures IsSubsequence(a, b + [x]) && IsSubsequence(a + [x], b + [x])
  {
    assert (b + [x])[..|b|] == b && (a + [x])[..|a|] == a;
  }

  lemma {:induction false} SubsequenceConcat(a: seq<Envelope>, b: seq<Envelope>, c: seq<Envelope>)
    requires IsSubsequence(a, b)
    ensures IsSubsequence(a + c, b + c)
  {
    if c == [] {
      assert a + c == a && b + c == b;
    } else {
      var n := |c| - 1;
      SubsequenceConcat(a, b, c[..n]);
      SubsequenceSnoc(a + c[..n], b + c[..n], c[n]);
      assert a + c == a + c[..n] + [c[n]] && b + c == b + c[..n] + [c[n]];
    }
  }

  /** The waiting messages are the newest ones enqueued; those read are among the older ones, in order. */
  predicate Told(queue: seq<Envelope>, t: Tally) {
    var gone := |t.enqueued| - |queue|;
    && gone >= 0
    && queue == t.enqueued[gone..]
    && IsSubsequence(t.consumed, t.enqueued[..gone])
    && |t.enqueued| == |t.consumed| + |queue| + t.lost
    && |queue| <= MAX_QUEUE
  }

  ghost predicate ClientOk(b: Broker, t: Tally, me: string) {
    (me in b.clients ==> Told(b.clients[me].queue, t)) && t.lost <= b.dropped
  }

  lemma ToldPush(queue: seq<Envelope>, t: Tally, e: Envelope)
    requires Told(queue, t)
    ensures Told(Pushed(queue, e),
                 t.(enqueued := t.enqueued + [e], lost := if |queue| >= MAX_QUEUE then t.lost + 1 else t.lost))
  {
    var gone := |t.enqueued| - |queue|;
    var longer := t.enqueued + [e];
    assert longer[..gone] == t.enqueued[..gone] && longer[gone..] == queue + [e];
    hide IsSubsequence;
    if |queue| >= MAX_QUEUE {
      assert longer[gone + 1..] == queue[1..] + [e];
      assert longer[..gone + 1] == t.enqueued[..gone] + [t.enqueued[gone]];
      SubsequenceSnoc(t.consumed, t.enqueued[..gone], t.enqueued[gone]);
    }
  }

  lemma ToldRead(queue: seq<Envelope>, t: Tally)
    requires Told(queue, t) && queue != []
    ensures Told(queue[1..], t.(consumed := t.consumed + [queue[0]]))
  {
    var gone := |t.enqueued| - |queue|;
    assert t.enqueued[..gone + 1] == t.enqueued[..gone] + [t.enqueued[gone]];
    SubsequenceSnoc(t.consumed, t.enqueued[..gone], t.enqueued[gone]);
  }

  lemma StepTold(b: Broker, t: Tally, op: Op, me: string)
    requires ClientOk(b, t, me)
    ensures ClientOk(Apply(b, op), Note(b, t, op, me), me)
  {
    hide Told;
    match op
    case Register(_) => NothingTold([], NEW_TALLY);
    case Read(id) =>
      if id == me && me in b.clients && b.clients[me].queue != [] {
        ToldRead(b.clients[me].queue, t);
      }
    case Fanout(e) =>
      if me in b.clients && Wants(b.clients[me], e) {
        ToldPush(b.clients[me].queue, t, e);
        if me in Overflowing(b.clients, e) {
          assert |Overflowing(b.clients, e)| > 0;
        }
      }
    case _ =>
  }

  lemma NothingTold(queue: seq<Envelope>, t: Tally)
    requires queue == [] && t.enqueued == [] && t.consumed == [] && t.lost == 0
    ensures Told(queue, t)
  {
    assert t.enqueued[0..] == queue;
  }

  lemma {:induction false} RunTold(ops: seq<Op>, me: string)
    ensures ClientOk(Run(NEW_BROKER, ops), Record(NEW_BROKER, ops, me), me)
  {
    hide ClientOk, Apply, Note;
    if ops == [] {
      NobodyThere(me);
    } else {
      RunTold(ops[..|ops| - 1], me);
      StepTold(Run(NEW_BROKER, ops[..|ops| - 1]), Record(NEW_BROKER, ops[..|ops| - 1], me), ops[|ops| - 1], me);
    }
  }

  lemma NobodyThere(me: string)
    ensures ClientOk(NEW_BROKER, NEW_TALLY, me)
  {
  }

  /**
    For every client and every interleaving: what it read and what still waits is, in order, part
    of what matched its symbols; the rest is counted as lost; and once anything was lost in favour
    of newer messages, the queue is the newest of them without a gap.
   */
  lemma ClientSeesNewest(ops: seq<Op>, me: string)
    ensures var b, t := Run(NEW_BROKER, ops), Record(NEW_BROKER, ops, me);
            me in b.clients ==>
              var queue := b.clients[me].queue;
              && |queue| <= MAX_QUEUE
              && |t.enqueued| == |t.consumed| + |queue| + t.lost
              && |queue| <= |t.enqueued| && queue == t.enqueued[|t.enqueued| - |queue|..]
              && IsSubsequence(t.consumed + queue, t.enqueued)
              && t.lost <= b.dropped
  {
    RunTold(ops, me);
    var b, t := Run(NEW_BROKER, ops), Record(NEW_BROKER, ops, me);
    if me in b.clients {
      var queue := b.clients[me].queue;
      var gone := |t.enqueued| - |queue|;
      SubsequenceConcat(t.consumed, t.enqueued[..gone], queue);
      assert t.enqueued == t.enqueued[..gone] + queue;
    }
  }

  /** Right after a client lost a message its queue holds exactly the newest `MAX_QUEUE` enqueued. */
  lemma FullAfterLoss(b: Broker, t: Tally, e: Envelope, me: string)
    requires ClientOk(b, t, me) && me in Overflowing(b.clients, e)
    ensures var b', t' := Apply(b, Fanout(e)), Note(b, t, Fanout(e), me);
            && t'.lost == t.lost + 1
            && |t'.enqueued| >= MAX_QUEUE
            && b'.clients[me].queue == t'.enqueued[|t'.enqueued| - MAX_QUEUE..]
  {
    StepTold(b, t, Fanout(e), me);
  }
}
