/**
  The exchange client's reconnect loop: connections are opened through a circuit breaker until
  enough messages were published, the reconnect budget is spent, or the circuit is open.
 */
module Exchange {
  import opened Wrappers
  import opened Resilience

  datatype Frame = Heartbeat | Ignored | Malformed | Event

  /** How a connection ends when it has nothing more to say. */
  datatype Ending = Close | Failure

  /** What the other side does with one connection: the frames it sends, how it ends, and how long that takes. */
  datatype Feed = Feed(frames: seq<Frame>, ending: Ending, duration: real)

  datatype Config = Config(maxMessages: int, maxReconnects: int, backoff: real, limits: Limits)
  {
    function Budget(): nat {
      if maxReconnects > 0 then maxReconnects else 0
    }

    function Wanted(): nat {
      if maxMessages > 0 then maxMessages else 0
    }
  }

  // ---------------------------------------------------------------------------
  // One connection
  // ---------------------------------------------------------------------------

  function CountOf(frames: seq<Frame>, f: Frame): nat {
    if frames == [] then 0 else CountOf(frames[..|frames| - 1], f) + if frames[|frames| - 1] == f then 1 else 0
  }

  /** What one connection came to: events published, and whether it gave all that was asked for. */
  datatype Connected = Connected(published: nat, full: bool)

  function Deliver(feed: Feed, remaining: nat): Connected {
    var events := CountOf(feed.frames, Event);
    if events >= remaining then Connected(remaining, true) else Connected(events, false)
  }

  lemma CountPrefix(frames: seq<Frame>, i: nat, f: Frame)
    requires i <= |frames|
    ensures CountOf(frames[..i], f) <= CountOf(frames, f)
    decreases |frames| - i
  {
    if i < |frames| {
      assert frames[..i + 1][..i] == frames[..i];
      CountPrefix(frames, i + 1, f);
    } else {
      assert frames[..i] == frames;
    }
  }

  /** Reads frames until enough events were published; a frame that cannot be read is counted and skipped. */
  method RunConnection(feed: Feed, remaining: nat) returns (c: Connected, malformed: nat, read: nat)
    requires remaining >= 1
    ensures c == Deliver(feed, remaining)
    ensures read <= |feed.frames| && CountOf(feed.frames[..read], Event) == c.published
    ensures malformed == CountOf(feed.frames[..read], Malformed)
    ensures !c.full ==> read == |feed.frames|
    ensures c.full ==> read > 0 && feed.frames[read - 1] == Event
  {
    var published := 0;
    malformed, read := 0, 0;
    while read < |feed.frames|
      invariant read <= |feed.frames|
      invariant published == CountOf(feed.frames[..read], Event) < remaining
      invariant malformed == CountOf(feed.frames[..read], Malformed)
    {
      assert feed.frames[..read + 1][..read] == feed.frames[..read];
      var frame := feed.frames[read];
      read := read + 1;
      if frame == Malformed {
        malformed := malformed + 1;
      } else if frame == Event {
        published := published + 1;
        if published >= remaining {
          CountPrefix(feed.frames, read, Event);
          return Connected(published, true), malformed, read;
        }
      }
    }
    assert feed.frames[..|feed.frames|] == feed.frames;
    c := Connected(published, false);
  }

  // ---------------------------------------------------------------------------
  // The loop
  // ---------------------------------------------------------------------------

  function Pow2(n: nat): nat {
    if n == 0 then 1 else 2 * Pow2(n - 1)
  }

  function BackoffDelay(c: Config, attempt: int): real {
    c.backoff * Pow2(if attempt >= 1 then attempt - 1 else 0) as real
  }

  datatype End = Returned | CircuitOpened | Raised

  /** The loop's variables, the breaker, and what can be observed: connections opened, events on the bus, time slept. */
  datatype Progress = Progress(
    published: nat, used: nat, breaker: Breaker, now: real,
    connections: nat, onBus: nat, reconnects: nat, connectFailures: nat, slept: real)

  function AtStart(breaker: Breaker, now: real): Progress {
    Progress(0, 0, breaker, now, 0, 0, 0, 0, 0.0)
  }

  /** Whether a connection counts as a failure: it ended early, and not by closing after having published something. */
  predicate Unproductive(feed: Feed, remaining: nat) {
    var d := Deliver(feed, remaining);
    !d.full && (feed.ending == Failure || d.published == 0)
  }

  function Slept(p: Progress, delay: real): Progress {
    p.(reconnects := p.reconnects + 1, now := p.now + delay, slept := p.slept + delay)
  }

  /** One pass of the loop, through an open connection. */
  function Connect(c: Config, p: Progress, breaker: Breaker, how: Admission, feed: Feed): (Progress, Option<End>)
    requires p.published < c.Wanted()
  {
    var remaining := c.Wanted() - p.published;
    var d := Deliver(feed, remaining);
    var ok := !Unproductive(feed, remaining);
    var after := p.now + feed.duration;
    var q := p.(breaker := Finished(breaker, c.limits, how, ok, after), now := after,
                connections := p.connections + 1, onBus := p.onBus + d.published);
    if d.full then (q.(published := p.published + d.published), Some(Returned))
    else if ok then
      (Slept(q.(published := p.published + d.published, used := 0), BackoffDelay(c, 1)), None)
    else
      var q := q.(connectFailures := q.connectFailures + 1);
      if p.used >= c.maxReconnects then (q, Some(Raised))
      else (Slept(q.(used := p.used + 1), BackoffDelay(c, p.used + 1)), None)
  }

  /** One pass of the loop. */
  function Pass(c: Config, p: Progress, feed: Feed): (Progress, Option<End>)
    requires p.published < c.Wanted()
  {
    var (breaker, how) := Admitted(p.breaker, c.limits, p.now);
    if how == Rejected then (p.(breaker := breaker), Some(CircuitOpened)) else Connect(c, p, breaker, how, feed)
  }

  lemma PassMeasure(c: Config, p: Progress, feed: Feed)
    requires p.published < c.Wanted() && p.used <= c.Budget()
    ensures var (q, end) := Pass(c, p, feed);
            && q.published <= c.Wanted() && q.used <= c.Budget()
            && (end.None? ==> (q.published > p.published && q.used == 0) || (q.published == p.published && q.used == p.used + 1))
            && (end.None? ==> q.connections == p.connections + 1 && q.published < c.Wanted())
            && q.connections <= p.connections + 1
  {
  }

  lemma {:induction false} CountOfIs(frames: seq<Frame>, f: Frame)
    ensures CountOf(frames, f) == multiset(frames)[f]
  {
    if frames != [] {
      var n := |frames| - 1;
      CountOfIs(frames[..n], f);
      assert frames == frames[..n] + [frames[n]];
    }
  }

  /**
    A connection that was let through and has `events` to give: it fills the need and the loop
    returns; or it is closed after some, is counted, and the next one is waited for once the base
    time, the budget being whole again; or it failed, nothing is counted, and the wait doubles with
    each failure in a row until the budget is spent.
   */
  lemma PassIs(c: Config, p: Progress, feed: Feed)
    requires p.published < c.maxMessages && Admitted(p.breaker, c.limits, p.now).1 != Rejected
    ensures var (q, end) := Pass(c, p, feed);
            var (breaker, how) := Admitted(p.breaker, c.limits, p.now);
            var events, missing := multiset(feed.frames)[Event], c.maxMessages - p.published;
            && q.connections == p.connections + 1
            && q.onBus == p.onBus + (if events < missing then events else missing)
            && q.now == p.now + feed.duration + (q.slept - p.slept)
            && (if events >= missing then
                  && end == Some(Returned) && q.published == c.maxMessages && q.slept == p.slept
                  && q.breaker == Finished(breaker, c.limits, how, true, p.now + feed.duration)
                else if events > 0 && feed.ending == Close then
                  && end == None && q.published == p.published + events && q.used == 0 && q.slept == p.slept + c.backoff
                  && q.breaker == Finished(breaker, c.limits, how, true, p.now + feed.duration)
                else
                  && q.published == p.published && q.connectFailures == p.connectFailures + 1
                  && q.breaker == Finished(breaker, c.limits, how, false, p.now + feed.duration)
                  && (if p.used < c.maxReconnects then
                        end == None && q.used == p.used + 1 && q.slept == p.slept + c.backoff * Pow2(p.used) as real
                      else end == Some(Raised) && q.used == p.used && q.slept == p.slept))
  {
    hide Finished, Admitted;
    CountOfIs(feed.frames, Event);
    assert Pow2(0) == 1;
  }

  /** The whole loop; connection number `k` is `script(k)`. It ends whatever the script does. */
  function Loop(c: Config, p: Progress, script: nat -> Feed): (Progress, End)
    requires p.published <= c.Wanted() && p.used <= c.Budget()
    decreases c.Wanted() - p.published, c.Budget() - p.used
  {
    if p.published >= c.Wanted() then (p, Returned)
    else
      PassMeasure(c, p, script(p.connections));
      var (q, end) := Pass(c, p, script(p.connections));
      if end.Some? then (q, end.value) else Loop(c, q, script)
  }

  class ExchangeWebSocketClient {
    const circuitBreaker: CircuitBreaker
    const maxReconnects: int
    const reconnectBackoffSeconds: real
    var reconnects: nat
    var eventsPublished: nat
    var connectFailures: nat

    constructor (circuitBreaker: CircuitBreaker, maxReconnects: int, backoff: real)
      ensures this.circuitBreaker == circuitBreaker && this.maxReconnects == maxReconnects && reconnectBackoffSeconds == backoff
      ensures reconnects == 0 && eventsPublished == 0 && connectFailures == 0
    {
      this.circuitBreaker, this.maxReconnects, this.reconnectBackoffSeconds := circuitBreaker, maxReconnects, backoff;
      reconnects, eventsPublished, connectFailures := 0, 0, 0;
    }

    function ConfigFor(maxMessages: int): Config {
      Config(maxMessages, maxReconnects, reconnectBackoffSeconds, circuitBreaker.limits)
    }

    method Run(maxMessages: int, script: nat -> Feed, start: real) returns (end: End, ghost p: Progress)
      modifies this, circuitBreaker
      ensures (p, end) == Loop(ConfigFor(maxMessages), AtStart(old(circuitBreaker.Value()), start), script)
      ensures circuitBreaker.Value() == p.breaker
      ensures reconnects == old(reconnects) + p.reconnects && eventsPublished == old(eventsPublished) + p.onBus
      ensures connectFailures == old(connectFailures) + p.connectFailures
    {
      hide Finished, Admitted, Loop, BackoffDelay, Deliver;
      var c := ConfigFor(maxMessages);
      ghost var first := AtStart(circuitBreaker.Value(), start);
      var published, reconnectsUsed, connections, now := 0, 0, 0, start;
      var wanted := if maxMessages > 0 then maxMessages else 0;
      p := first;
      RunStart(c, p, script);
      while published < wanted
        invariant p.published == published <= wanted && p.used == reconnectsUsed <= c.Budget()
        invariant p.connections == connections && p.now == now && p.breaker == circuitBreaker.Value()
        invariant reconnects == old(reconnects) + p.reconnects && eventsPublished == old(eventsPublished) + p.onBus
        invariant connectFailures == old(connectFailures) + p.connectFailures
        invariant Loop(c, first, script) == Loop(c, p, script)
        decreases wanted - published, c.Budget() - reconnectsUsed
      {
        RunOn(c, p, script);
        ghost var before := p;
        ghost var feed := script(p.connections);
        var how := circuitBreaker.Admit(now);
        if how == Rejected {
          p := Pass(c, before, feed).0;
          return CircuitOpened, p;
        }
        var connection := script(connections);
        var got, malformed, read := RunConnection(connection, wanted - published);
        now := now + connection.duration;
        connections := connections + 1;
        eventsPublished := eventsPublished + got.published;
        var ok := got.full || (connection.ending == Close && got.published > 0);
        circuitBreaker.Finish(how, ok, now);
        p := Pass(c, before, feed).0;
        if ok {
          published := published + got.published;
          if got.full {
            return Returned, p;
          }
          reconnectsUsed := 0;
          reconnects := reconnects + 1;
          now := now + BackoffDelay(c, 1);
        } else {
          connectFailures := connectFailures + 1;
          if reconnectsUsed >= maxReconnects {
            return Raised, p;
          }
          reconnectsUsed := reconnectsUsed + 1;
          reconnects := reconnects + 1;
          now := now + BackoffDelay(c, reconnectsUsed);
        }
      }
      RunStop(c, p, script);
      end := Returned;
    }
  }

  lemma RunStart(c: Config, p: Progress, script: nat -> Feed)
    requires p.published == 0 && p.used == 0
    ensures p.published <= c.Wanted() && p.used <= c.Budget()
  {
  }

  lemma RunOn(c: Config, p: Progress, script: nat -> Feed)
    requires p.published < c.Wanted() && p.used <= c.Budget()
    ensures var (q, end) := Pass(c, p, script(p.connections));
            && q.published <= c.Wanted() && q.used <= c.Budget()
            && Loop(c, p, script) == (if end.Some? then (q, end.value) else Loop(c, q, script))
            && (end.None? ==> q.published > p.published || (q.published == p.published && q.used == p.used + 1))
  {
    hide Pass;
    PassMeasure(c, p, script(p.connections));
  }

  lemma RunStop(c: Config, p: Progress, script: nat -> Feed)
    requires p.published == c.Wanted() && p.used <= c.Budget()
    ensures Loop(c, p, script) == (p, Returned)
  {
  }

  // ---------------------------------------------------------------------------
  // How many connections, and what is published
  // ---------------------------------------------------------------------------

  /** How many more connections the loop can still open. */
  function ConnectionsLeft(c: Config, p: Progress): int {
    (c.Wanted() - p.published) * (c.Budget() + 1) - p.used
  }

  lemma PassUsesOne(c: Config, p: Progress, feed: Feed)
    requires p.published < c.Wanted() && p.used <= c.Budget()
    ensures var (q, end) := Pass(c, p, feed);
            && (end.None? ==> ConnectionsLeft(c, q) + q.connections <= ConnectionsLeft(c, p) + p.connections)
            && (end.Some? ==> q.connections <= p.connections + 1)
            && ConnectionsLeft(c, p) >= 1
  {
    PassMeasure(c, p, feed);
    hide Pass;
    var q := Pass(c, p, feed).0;
    OneLess(c.Wanted() - p.published, q.published - p.published, c.Budget() + 1, p.used, q.used);
  }

  lemma OneLess(left: int, gone: int, r: int, used: int, usedAfter: int)
    requires left >= 1 && 0 <= used < r
    ensures left * r - used >= 1
    ensures (gone >= 1 && usedAfter == 0) || (gone == 0 && usedAfter == used + 1)
            ==> (left - gone) * r - usedAfter + 1 <= left * r - used
  {
    assert left * r >= r;
    assert (left - gone) * r == left * r - gone * r;
    assert gone >= 1 ==> gone * r >= r;
  }

  lemma {:induction false} LoopConnections(c: Config, p: Progress, script: nat -> Feed)
    requires p.published <= c.Wanted() && p.used <= c.Budget()
    requires p.published == c.Wanted() ==> p.used == 0
    ensures Loop(c, p, script).0.connections <= p.connections + ConnectionsLeft(c, p)
    decreases c.Wanted() - p.published, c.Budget() - p.used
  {
    hide Pass, ConnectionsLeft;
    if p.published < c.Wanted() {
      var feed := script(p.connections);
      RunOn(c, p, script);
      PassUsesOne(c, p, feed);
      GoesOn(c, p, feed);
      var (q, end) := Pass(c, p, feed);
      if end.None? {
        LoopConnections(c, q, script);
      }
    } else {
      NothingLeft(c, p);
    }
  }

  lemma GoesOn(c: Config, p: Progress, feed: Feed)
    requires p.published < c.Wanted() && p.used <= c.Budget()
    ensures var (q, end) := Pass(c, p, feed);
            end.None? ==> q.published < c.Wanted()
  {
  }

  lemma NothingLeft(c: Config, p: Progress)
    requires p.published == c.Wanted() && p.used == 0
    ensures ConnectionsLeft(c, p) >= 0
  {
  }

  /** The loop ends for every behaviour of the other side, having opened at most `M * (R + 1)` connections. */
  lemma BoundedConnections(c: Config, breaker: Breaker, start: real, script: nat -> Feed)
    ensures Loop(c, AtStart(breaker, start), script).0.connections <= c.Wanted() * (c.Budget() + 1)
  {
    LoopConnections(c, AtStart(breaker, start), script);
  }

  /** A connection as it was opened: what the other side did with it, and how many events were still wanted. */
  datatype Opened = Opened(feed: Feed, remaining: nat)

  /** The connections the loop opens from here on. */
  function Connections(c: Config, p: Progress, script: nat -> Feed): seq<Opened>
    requires p.published <= c.Wanted() && p.used <= c.Budget()
    decreases c.Wanted() - p.published, c.Budget() - p.used
  {
    if p.published >= c.Wanted() then []
    else
      PassMeasure(c, p, script(p.connections));
      var (q, end) := Pass(c, p, script(p.connections));
      if end == Some(CircuitOpened) then []
      else
        [Opened(script(p.connections), c.Wanted() - p.published)] + (if end.None? then Connections(c, q, script) else [])
  }

  /** The connection broke down before it had given all that was wanted. */
  predicate Failed(o: Opened) {
    o.feed.ending == Failure && CountOf(o.feed.frames, Event) < o.remaining
  }

  /** Events that reached the bus over connections that failed afterwards. */
  function Lost(tried: seq<Opened>): nat {
    if tried == [] then 0
    else (if Failed(tried[0]) then CountOf(tried[0].feed.frames, Event) else 0) + Lost(tried[1..])
  }

  /** None were lost exactly when no failed connection had delivered any. */
  lemma {:induction false} LostNothing(tried: seq<Opened>)
    ensures Lost(tried) == 0 <==> forall i | 0 <= i < |tried| && Failed(tried[i]) :: CountOf(tried[i].feed.frames, Event) == 0
  {
    hide Failed;
    if tried != [] {
      LostNothing(tried[1..]);
      assert forall i | 0 <= i < |tried| - 1 :: tried[1..][i] == tried[i + 1];
      assert forall i | 0 < i < |tried| :: tried[i] == tried[1..][i - 1];
    }
  }

  lemma PassDelivers(c: Config, p: Progress, feed: Feed)
    requires p.published < c.Wanted() && p.used <= c.Budget()
    ensures var (q, end) := Pass(c, p, feed);
            var o := Opened(feed, c.Wanted() - p.published);
            && (end == Some(CircuitOpened) ==> q.onBus == p.onBus && q.published == p.published && q.connections == p.connections)
            && (end != Some(CircuitOpened) ==>
                  && q.connections == p.connections + 1
                  && q.onBus - p.onBus
                     == q.published - p.published + (if Failed(o) then CountOf(feed.frames, Event) else 0))
            && (end == Some(Returned) ==> q.published == c.Wanted())
  {
    hide Finished, Admitted, BackoffDelay;
  }

  /**
    When the loop returns it has counted exactly the events asked for. The bus got those and the
    events of connections that failed after publishing some, which are never counted.
   */
  lemma {:induction false} ReturnsExactly(c: Config, p: Progress, script: nat -> Feed)
    requires p.published <= c.Wanted() && p.used <= c.Budget()
    ensures var (q, end) := Loop(c, p, script);
            && (end == Returned ==> q.published == c.Wanted())
            && q.onBus - p.onBus == (q.published - p.published) + Lost(Connections(c, p, script))
            && |Connections(c, p, script)| == q.connections - p.connections
    decreases c.Wanted() - p.published, c.Budget() - p.used
  {
    hide Pass, Failed, CountOf;
    if p.published < c.Wanted() {
      RunOn(c, p, script);
      PassDelivers(c, p, script(p.connections));
      var (q, end) := Pass(c, p, script(p.connections));
      if end.None? {
        ReturnsExactly(c, q, script);
        var first, rest := Opened(script(p.connections), c.Wanted() - p.published), Connections(c, q, script);
        assert Connections(c, p, script) == [first] + rest;
        LostMore(first, rest);
      } else if end != Some(CircuitOpened) {
        LostMore(Opened(script(p.connections), c.Wanted() - p.published), []);
      }
    }
  }

  /** Connection number `i` of those the loop opens is the script's. */
  lemma {:induction false} ConnectionsAre(c: Config, p: Progress, script: nat -> Feed, i: nat)
    requires p.published <= c.Wanted() && p.used <= c.Budget() && i < |Connections(c, p, script)|
    ensures Connections(c, p, script)[i].feed == script(p.connections + i)
    decreases i
  {
    hide Pass;
    if i > 0 {
      RunOn(c, p, script);
      PassOpens(c, p, script(p.connections));
      ConnectionsAre(c, Pass(c, p, script(p.connections)).0, script, i - 1);
    }
  }

  lemma LostMore(first: Opened, rest: seq<Opened>)
    ensures Lost([first] + rest) == (if Failed(first) then CountOf(first.feed.frames, Event) else 0) + Lost(rest)
  {
    assert ([first] + rest)[1..] == rest;
  }

  predicate OnlyCloses(script: nat -> Feed, n: nat) {
    forall k: nat | k < n :: script(k).ending == Close
  }

  /** If only closes interrupt it, the bus got exactly what was counted. */
  lemma ClosesCountEverything(c: Config, breaker: Breaker, start: real, script: nat -> Feed)
    requires OnlyCloses(script, Loop(c, AtStart(breaker, start), script).0.connections)
    ensures var (q, end) := Loop(c, AtStart(breaker, start), script);
            q.onBus == q.published && (end == Returned ==> q.onBus == c.Wanted())
  {
    var p := AtStart(breaker, start);
    ReturnsExactly(c, p, script);
    var connections := Connections(c, p, script);
    LostNothing(connections);
    forall i | 0 <= i < |connections|
      ensures !Failed(connections[i])
    {
      ConnectionsAre(c, p, script, i);
    }
  }

  lemma PassOpens(c: Config, p: Progress, feed: Feed)
    requires p.published < c.Wanted()
    ensures var (q, end) := Pass(c, p, feed);
            && q.connections == (if end == Some(CircuitOpened) then p.connections else p.connections + 1)
            && (end == Some(CircuitOpened) ==> q.onBus == p.onBus && q.published == p.published)
  {
  }

  lemma PassCounts(c: Config, p: Progress, feed: Feed)
    requires p.published < c.Wanted() && p.used <= c.Budget()
    ensures var (q, end) := Pass(c, p, feed);
            && (end.None? ==> q.connections - q.reconnects == p.connections - p.reconnects)
            && (end == Some(CircuitOpened) ==> q.connections - q.reconnects == p.connections - p.reconnects)
            && (end == Some(Returned) || end == Some(Raised) ==>
                  q.connections - q.reconnects == p.connections - p.reconnects + 1)
            && (end == Some(Returned) ==> q.connectFailures == p.connectFailures)
            && p.connectFailures <= q.connectFailures
            && q.connectFailures - p.connectFailures <= q.connections - p.connections
  {
  }

  /** The counters agree: every connection but the one that ended the loop led to a reconnect, and no more failed than were opened. */
  lemma {:induction false} CountersAgree(c: Config, p: Progress, script: nat -> Feed)
    requires p.published < c.Wanted() && p.used <= c.Budget()
    ensures var (q, end) := Loop(c, p, script);
            && q.connections - q.reconnects == p.connections - p.reconnects + (if end == CircuitOpened then 0 else 1)
            && p.connectFailures <= q.connectFailures
            && q.connectFailures - p.connectFailures <= q.connections - p.connections
    decreases c.Wanted() - p.published, c.Budget() - p.used
  {
    hide Pass;
    var feed := script(p.connections);
    RunOn(c, p, script);
    PassCounts(c, p, feed);
    GoesOn(c, p, feed);
    var (q, end) := Pass(c, p, feed);
    if end.None? {
      CountersAgree(c, q, script);
    }
  }

  // ---------------------------------------------------------------------------
  // When the loop gives up
  // ---------------------------------------------------------------------------

  /** The last `n` connections opened were all unproductive. */
  predicate LastFailed(c: Config, p: Progress, script: nat -> Feed, n: nat) {
    n <= p.connections
    && forall k | p.connections - n <= k < p.connections :: Unproductive(script(k), c.Wanted() - Min(p.published, c.Wanted()))
  }

  function Min(a: nat, b: nat): nat {
    if a < b then a else b
  }

  lemma PassFails(c: Config, p: Progress, script: nat -> Feed)
    requires p.published < c.Wanted() && p.used <= c.Budget() && LastFailed(c, p, script, p.used)
    ensures var (q, end) := Pass(c, p, script(p.connections));
            && (end.None? ==> LastFailed(c, q, script, q.used))
            && (end == Some(Raised) ==> LastFailed(c, q, script, c.Budget() + 1))
  {
    hide Deliver, Finished, Admitted;
  }

  /** An error other than an open circuit ends the loop only after one more unproductive connection in a row than it may reconnect. */
  lemma {:induction false} RaisesAfterBudget(c: Config, p: Progress, script: nat -> Feed)
    requires p.published <= c.Wanted() && p.used <= c.Budget() && LastFailed(c, p, script, p.used)
    ensures var (q, end) := Loop(c, p, script);
            end == Raised ==> LastFailed(c, q, script, c.Budget() + 1)
    decreases c.Wanted() - p.published, c.Budget() - p.used
  {
    hide Pass, LastFailed;
    if p.published < c.Wanted() {
      RunOn(c, p, script);
      PassFails(c, p, script);
      var (q, end) := Pass(c, p, script(p.connections));
      if end.None? {
        RaisesAfterBudget(c, q, script);
      }
    }
  }

  /** From the start: `R + 1` unproductive connections in a row, and nothing less, surface a feed's own error. */
  lemma GivesUpLate(c: Config, breaker: Breaker, start: real, script: nat -> Feed)
    ensures var (q, end) := Loop(c, AtStart(breaker, start), script);
            end == Raised ==> LastFailed(c, q, script, c.Budget() + 1)
  {
    RaisesAfterBudget(c, AtStart(breaker, start), script);
  }

  // ---------------------------------------------------------------------------
  // A dead feed
  // ---------------------------------------------------------------------------

  /** No connection ever publishes anything. */
  predicate IsDead(script: nat -> Feed, n: nat) {
    forall k: nat | k <= n :: CountOf(script(k).frames, Event) == 0
  }

  /** `base * (2^k - 1)`. */
  function TotalBackoff(c: Config, k: nat): real {
    c.backoff * (Pow2(k) - 1) as real
  }

  lemma BackoffSum(c: Config, k: nat)
    requires k >= 1
    ensures TotalBackoff(c, k - 1) + BackoffDelay(c, k) == TotalBackoff(c, k)
  {
    assert Pow2(k) == 2 * Pow2(k - 1);
    var x := Pow2(k - 1) as real;
    assert (Pow2(k) - 1) as real == 2.0 * x - 1.0 && (Pow2(k - 1) - 1) as real == x - 1.0;
  }

  /** After `k` failures of a dead feed, with the circuit still closed. */
  predicate Failing(c: Config, p: Progress, k: nat) {
    && p.published == 0 && p.used == k == p.connections
    && p.breaker == Breaker(Closed, k, None, false)
    && p.slept == TotalBackoff(c, k)
  }

  /** One more failure: the circuit opens with failure number `threshold`, and the wait comes after it. */
  lemma FailOnce(c: Config, p: Progress, feed: Feed, k: nat)
    requires c.Wanted() >= 1 && c.limits.threshold >= 1 && k < c.limits.threshold && k <= c.Budget()
    requires Failing(c, p, k) && CountOf(feed.frames, Event) == 0
    ensures var (q, end) := Pass(c, p, feed);
            && q.connections == k + 1
            && (end == if k >= c.Budget() then Some(Raised) else None)
            && (end == Some(Raised) ==> q.slept == TotalBackoff(c, k))
            && (end.None? && k + 1 < c.limits.threshold ==> Failing(c, q, k + 1))
            && (end.None? && k + 1 == c.limits.threshold ==>
                  && q.published == 0 && q.used == k + 1
                  && q.slept == TotalBackoff(c, k + 1)
                  && q.breaker == Breaker(Open, k + 1, Some(q.now - BackoffDelay(c, k + 1)), false))
  {
    hide Pow2, BackoffDelay, TotalBackoff;
    BackoffSum(c, k + 1);
  }

  /** The breaker refuses a call that comes too early, and lets one probe through otherwise. */
  lemma AskOpen(c: Config, p: Progress, feed: Feed, openedAt: real)
    requires p.published < c.Wanted() && p.breaker.state == Open && p.breaker.openedAt == Some(openedAt) && !p.breaker.probing
    ensures var (q, end) := Pass(c, p, feed);
            if p.now - openedAt < c.limits.resetTimeout then
              end == Some(CircuitOpened) && q == p
            else
              q.connections == p.connections + 1
  {
    hide Deliver, BackoffDelay;
  }

  /** What becomes of a dead feed with `k` failures behind it. */
  lemma {:induction false} DeadFeedFrom(c: Config, p: Progress, script: nat -> Feed, k: nat)
    requires c.Wanted() >= 1 && c.limits.threshold >= 1 && k < c.limits.threshold && k <= c.Budget()
    requires Failing(c, p, k) && IsDead(script, c.Budget() + c.limits.threshold)
    ensures var (q, end) := Loop(c, p, script);
            var f := c.limits.threshold;
            if c.Budget() < f then
              end == Raised && q.connections == c.Budget() + 1 && q.slept == TotalBackoff(c, c.Budget())
            else if BackoffDelay(c, f) < c.limits.resetTimeout then
              end == CircuitOpened && q.connections == f && q.slept == TotalBackoff(c, f)
            else
              q.connections > f
    decreases c.Budget() - k
  {
    hide Pass, Pow2, BackoffDelay, CountOf, TotalBackoff;
    var feed := script(p.connections);
    FailOnce(c, p, feed, k);
    RunOn(c, p, script);
    var (q, end) := Pass(c, p, feed);
    if end.None? {
      if k + 1 < c.limits.threshold {
        DeadFeedFrom(c, q, script, k + 1);
      } else {
        AskOpen(c, q, script(q.connections), q.now - BackoffDelay(c, k + 1));
        RunOn(c, q, script);
        OpensMore(c, q, script);
      }
    }
  }

  lemma {:induction false} OpensMore(c: Config, p: Progress, script: nat -> Feed)
    requires p.published <= c.Wanted() && p.used <= c.Budget()
    ensures Loop(c, p, script).0.connections >= p.connections
    ensures p.published < c.Wanted() ==> Loop(c, p, script).0.connections >= Pass(c, p, script(p.connections)).0.connections
    decreases c.Wanted() - p.published, c.Budget() - p.used
  {
    hide Pass;
    if p.published < c.Wanted() {
      RunOn(c, p, script);
      PassOpens(c, p, script(p.connections));
      var (q, end) := Pass(c, p, script(p.connections));
      if end.None? {
        OpensMore(c, q, script);
      }
    }
  }

  /**
    A feed that publishes nothing, behind a fresh breaker: with `threshold <= R` it gets exactly
    `threshold` attempts and then an open circuit, having waited `base * (2^threshold - 1)` in all,
    if and only if the last wait is shorter than the reset timeout.
   */
  lemma DeadFeed(c: Config, start: real, script: nat -> Feed)
    requires c.maxMessages >= 1 && c.limits.threshold >= 1 && IsDead(script, c.Budget() + c.limits.threshold)
    requires c.limits.threshold <= c.maxReconnects
    ensures var (q, end) := Loop(c, AtStart(NEW_BREAKER, start), script);
            var f := c.limits.threshold;
            BackoffDelay(c, f) < c.limits.resetTimeout
            <==> end == CircuitOpened && q.connections == f && q.slept == TotalBackoff(c, f)
  {
    assert Pow2(0) == 1;
    DeadFeedFrom(c, AtStart(NEW_BREAKER, start), script, 0);
  }

  /** With a smaller budget than the breaker's threshold the feed's own error surfaces first. */
  lemma DeadFeedSmallBudget(c: Config, start: real, script: nat -> Feed)
    requires c.maxMessages >= 1 && c.limits.threshold >= 1 && IsDead(script, c.Budget() + c.limits.threshold)
    requires c.Budget() < c.limits.threshold
    ensures var (q, end) := Loop(c, AtStart(NEW_BREAKER, start), script);
            end == Raised && q.connections == c.Budget() + 1 && q.slept == TotalBackoff(c, c.Budget())
  {
    assert Pow2(0) == 1;
    DeadFeedFrom(c, AtStart(NEW_BREAKER, start), script, 0);
  }
}
