/**
  Refreshes of the read model in the middle of everything else that happens on the bus: any
  operations, by anyone, before each peek, as long as nobody receives from the subscription.
 */
module ReadRuns {
  import opened Wrappers
  import opened Bus
  import opened Cache
  import opened ReadModel
  import L = BusLedger

  /** Nothing is received from the subscription; everything else may happen. */
  predicate Quiet(ops: seq<L.Op>, t: string, s: string) {
    forall i | 0 <= i < |ops| :: !(ops[i].Receive? && ops[i].topic == t && ops[i].sub == s)
  }

  /** Consecutive numbers up to the topic's next one, and nothing queued before the subscription exists. */
  ghost predicate Numbered(c: L.Channel) {
    && |c.queue| <= c.next
    && L.Consecutive(c.queue, c.next - |c.queue|)
    && (!c.subscribed ==> c.queue == [])
  }

  function First(c: L.Channel): int {
    c.next - |c.queue|
  }

  /** A later state of a subscription nobody received from: it only grew, and kept its first number if it existed. */
  predicate Grew(c: L.Channel, c': L.Channel) {
    && c.queue <= c'.queue
    && (c.subscribed ==> c'.subscribed && First(c') == First(c))
  }

  // ---------------------------------------------------------------------------
  // What the bus does between two peeks
  // ---------------------------------------------------------------------------

  lemma StepGrows(c: L.Channel, op: L.Op, t: string, s: string)
    requires Numbered(c) && !(op.Receive? && op.topic == t && op.sub == s)
    ensures Numbered(L.Step(c, op, t, s)) && Grew(c, L.Step(c, op, t, s))
  {
  }

  lemma GrewTwice(c0: L.Channel, c1: L.Channel, c2: L.Channel)
    requires Grew(c0, c1) && Grew(c1, c2)
    ensures Grew(c0, c2)
  {
  }

  /** Whatever run of operations lies between two looks at a subscription, it only grows, unless someone receives from it. */
  lemma {:induction false} RunGrows(b: BusState, ops: seq<L.Op>, t: string, s: string)
    requires L.Routed(b) && Numbered(L.View(b, t, s)) && Quiet(ops, t, s)
    ensures L.Routed(L.Run(b, ops)) && Numbered(L.View(L.Run(b, ops), t, s))
    ensures Grew(L.View(b, t, s), L.View(L.Run(b, ops), t, s))
    decreases |ops|
  {
    if ops == [] {
    } else {
      var c, b' := L.View(b, t, s), L.Apply(b, ops[0]);
      L.ViewSteps(b, ops[0], t, s);
      L.RoutedSteps(b, ops[0]);
      StepGrows(c, ops[0], t, s);
      assert Quiet(ops[1..], t, s);
      hide L.Apply, L.Step, L.View, L.Routed, Numbered, Grew;
      RunGrows(b', ops[1..], t, s);
      GrewTwice(c, L.View(b', t, s), L.View(L.Run(b', ops[1..]), t, s));
    }
  }

  lemma StepNumbers(c: L.Channel, op: L.Op, t: string, s: string)
    requires Numbered(c)
    ensures Numbered(L.Step(c, op, t, s))
  {
  }

  /** Every bus that came about by bus operations, receives included, numbers its queues that way. */
  lemma {:induction false} AlwaysNumbered(b: BusState, ops: seq<L.Op>, t: string, s: string)
    requires L.Routed(b) && Numbered(L.View(b, t, s))
    ensures L.Routed(L.Run(b, ops)) && Numbered(L.View(L.Run(b, ops), t, s))
    ensures L.Routed(EMPTY_BUS) && Numbered(L.View(EMPTY_BUS, t, s))
    decreases |ops|
  {
    L.RoutedStart();
    if ops != [] {
      L.ViewSteps(b, ops[0], t, s);
      L.RoutedSteps(b, ops[0]);
      StepNumbers(L.View(b, t, s), ops[0], t, s);
      hide L.Apply, L.Step, L.View, L.Routed, Numbered;
      AlwaysNumbered(L.Apply(b, ops[0]), ops[1..], t, s);
    }
  }

  // ---------------------------------------------------------------------------
  // The peeks of one refresh
  // ---------------------------------------------------------------------------

  /** The bus after the first `n` stretches of other operations, each followed by a peek. */
  function Peeks(b: BusState, t: string, s: string, gaps: seq<seq<L.Op>>, n: nat): BusState
    requires n <= |gaps|
  {
    if n == 0 then b else Subscribed(BeforePeek(b, t, s, gaps, n - 1), t, s)
  }

  /** The bus as peek `i` finds it. */
  function BeforePeek(b: BusState, t: string, s: string, gaps: seq<seq<L.Op>>, i: nat): BusState
    requires i < |gaps|
  {
    L.Run(if i == 0 then b else Subscribed(BeforePeek(b, t, s, gaps, i - 1), t, s), gaps[i])
  }

  function Snapshots(b: BusState, t: string, s: string, gaps: seq<seq<L.Op>>): (found: seq<seq<Message>>)
    ensures |found| == |gaps|
  {
    seq(|gaps|, i requires 0 <= i < |gaps| => BeforePeek(b, t, s, gaps, i).Queue(t, s))
  }

  predicate AllQuiet(gaps: seq<seq<L.Op>>, t: string, s: string) {
    forall i | 0 <= i < |gaps| :: Quiet(gaps[i], t, s)
  }

  /** A peek changes nothing about a subscription but that it exists from then on. */
  lemma PeekSubscribes(b: BusState, t: string, s: string)
    requires L.Routed(b) && Numbered(L.View(b, t, s))
    ensures L.Routed(Subscribed(b, t, s)) && Numbered(L.View(Subscribed(b, t, s), t, s))
    ensures L.View(Subscribed(b, t, s), t, s) == L.View(b, t, s).(subscribed := true)
  {
    L.ViewSteps(b, L.Peek(t, s, 0, None), t, s);
    L.RoutedSteps(b, L.Peek(t, s, 0, None));
    assert L.Apply(b, L.Peek(t, s, 0, None)) == Subscribed(b, t, s);
    hide L.Routed, Subscribed, L.View;
  }

  /** What peek `i` sees of the subscription. */
  function AtPeek(b: BusState, t: string, s: string, gaps: seq<seq<L.Op>>, i: nat): L.Channel
    requires i < |gaps|
  {
    L.View(BeforePeek(b, t, s, gaps, i), t, s)
  }

  /** A later peek finds the same queue, perhaps longer. */
  predicate Onward(c: L.Channel, c': L.Channel) {
    c.queue <= c'.queue && First(c) == First(c')
  }

  lemma OnwardOver(c: L.Channel, c0: L.Channel, c1: L.Channel, c2: L.Channel)
    requires Onward(c, c0) && c1 == c0.(subscribed := true) && Grew(c1, c2)
    ensures Onward(c, c2)
  {
  }

  lemma GrewOver(c: L.Channel, c0: L.Channel, c1: L.Channel, c2: L.Channel)
    requires Grew(c, c0) && c1 == c0.(subscribed := true) && Grew(c1, c2)
    ensures Grew(c, c2)
  {
  }

  lemma QuietAt(gaps: seq<seq<L.Op>>, t: string, s: string, i: nat)
    requires AllQuiet(gaps, t, s) && i < |gaps|
    ensures Quiet(gaps[i], t, s)
  {
  }

  lemma FirstPeek(b: BusState, t: string, s: string, gaps: seq<seq<L.Op>>)
    requires |gaps| > 0 && Quiet(gaps[0], t, s) && L.Routed(b) && Numbered(L.View(b, t, s))
    ensures L.Routed(BeforePeek(b, t, s, gaps, 0)) && Numbered(AtPeek(b, t, s, gaps, 0))
    ensures Grew(L.View(b, t, s), AtPeek(b, t, s, gaps, 0))
  {
    hide L.View, L.Run, L.Routed, Numbered, Quiet, Grew;
    RunGrows(b, gaps[0], t, s);
  }

  /** From one peek to the next. */
  lemma NextPeek(b: BusState, t: string, s: string, gaps: seq<seq<L.Op>>, i: nat)
    requires 0 < i < |gaps| && Quiet(gaps[i], t, s)
    requires L.Routed(BeforePeek(b, t, s, gaps, i - 1)) && Numbered(AtPeek(b, t, s, gaps, i - 1))
    ensures L.Routed(BeforePeek(b, t, s, gaps, i)) && Numbered(AtPeek(b, t, s, gaps, i))
    ensures Grew(AtPeek(b, t, s, gaps, i - 1).(subscribed := true), AtPeek(b, t, s, gaps, i))
  {
    hide L.View, L.Run, L.Routed, Numbered, Quiet, Subscribed, Grew;
    var last := BeforePeek(b, t, s, gaps, i - 1);
    PeekSubscribes(last, t, s);
    RunGrows(Subscribed(last, t, s), gaps[i], t, s);
  }

  /** Up to peek `i`, seen from before the first one and from peek `j`. */
  lemma {:induction false} PeeksGrow(b: BusState, t: string, s: string, gaps: seq<seq<L.Op>>, i: nat, j: nat)
    requires L.Routed(b) && Numbered(L.View(b, t, s)) && AllQuiet(gaps, t, s) && j <= i < |gaps|
    ensures L.Routed(BeforePeek(b, t, s, gaps, i)) && Numbered(AtPeek(b, t, s, gaps, i))
    ensures Grew(L.View(b, t, s), AtPeek(b, t, s, gaps, i))
    ensures Onward(AtPeek(b, t, s, gaps, j), AtPeek(b, t, s, gaps, i))
    decreases i
  {
    hide *;
    QuietAt(gaps, t, s, i);
    if i == 0 {
      FirstPeek(b, t, s, gaps);
      OnwardSelf(AtPeek(b, t, s, gaps, 0));
    } else {
      PeeksGrow(b, t, s, gaps, i - 1, if j < i then j else i - 1);
      NextPeek(b, t, s, gaps, i);
      var c0, c2 := AtPeek(b, t, s, gaps, i - 1), AtPeek(b, t, s, gaps, i);
      GrewOver(L.View(b, t, s), c0, c0.(subscribed := true), c2);
      if j < i {
        OnwardOver(AtPeek(b, t, s, gaps, j), c0, c0.(subscribed := true), c2);
      } else {
        OnwardSelf(c2);
      }
    }
  }

  lemma OnwardSelf(c: L.Channel)
    ensures Onward(c, c)
  {
  }

  /** The peeks of a refresh find the subscription growing from what it was, with one first number. */
  lemma SnapshotsGrow(b: BusState, t: string, s: string, gaps: seq<seq<L.Op>>)
    requires L.Routed(b) && Numbered(L.View(b, t, s)) && AllQuiet(gaps, t, s) && |gaps| > 0
    ensures var first := First(AtPeek(b, t, s, gaps, 0));
            && first >= 0 && Growing(b.Queue(t, s), Snapshots(b, t, s, gaps), first)
            && (s in b.QueuesOf(t) ==> first == First(L.View(b, t, s)))
  {
    var first, found := First(AtPeek(b, t, s, gaps, 0)), Snapshots(b, t, s, gaps);
    PeeksGrow(b, t, s, gaps, 0, 0);
    forall i | 0 <= i < |gaps|
      ensures L.Consecutive(found[i], first)
    {
      PeeksGrow(b, t, s, gaps, i, 0);
    }
    forall i, j | 0 <= i <= j < |gaps|
      ensures found[i] <= found[j]
    {
      PeeksGrow(b, t, s, gaps, j, i);
    }
  }

  // ---------------------------------------------------------------------------
  // Refresh after refresh
  // ---------------------------------------------------------------------------

  /** The bus, the model, and every message the model ever looked at. */
  datatype Reader = Reader(bus: BusState, model: Model, validated: seq<Message>)

  /**
    One refresh with what others do before each of its peeks. A refresh that stops early leaves its
    last peeks out, which makes no difference: the subscription exists by then.
   */
  function Round(r: Reader, t: string, s: string, gaps: seq<seq<L.Op>>, validate: string -> Option<string>): Reader {
    var got := CatchUp(r.model, Snapshots(r.bus, t, s, gaps), 0, validate);
    Reader(Peeks(r.bus, t, s, gaps, |gaps|), got.model, r.validated + got.validated)
  }

  function Rounds(r: Reader, t: string, s: string, rounds: seq<seq<seq<L.Op>>>, validate: string -> Option<string>): Reader {
    if rounds == [] then r
    else Round(Rounds(r, t, s, rounds[..|rounds| - 1], validate), t, s, rounds[|rounds| - 1], validate)
  }

  predicate Proper(gaps: seq<seq<L.Op>>, t: string, s: string) {
    |gaps| == MAX_PEEK_CHUNKS && AllQuiet(gaps, t, s)
  }

  /** The model agrees with the subscription, and has looked at each message below its cursor once, in order. */
  ghost predicate InTouch(r: Reader, t: string, s: string, validate: string -> Option<string>) {
    var c := L.View(r.bus, t, s);
    && L.Routed(r.bus) && Numbered(c)
    && (c.subscribed ==>
          && Agrees(r.model, c.queue, First(c), validate)
          && r.validated == c.queue[..BelowCursor(r.model.cursor, First(c))])
    && (!c.subscribed ==> r.model == NEW_MODEL && r.validated == [])
  }

  lemma NewAgrees(first: nat, validate: string -> Option<string>)
    ensures Agrees(NEW_MODEL, [], first, validate) && BelowCursor(NEW_MODEL.cursor, first) == 0
  {
  }

  lemma StillAgrees(m: Model, log: seq<Message>, first: nat, first': nat, validate: string -> Option<string>, known: bool)
    requires known ==> Agrees(m, log, first, validate) && first == first'
    requires !known ==> m == NEW_MODEL && log == []
    ensures Agrees(m, log, first', validate)
  {
    NewAgrees(first', validate);
  }

  lemma RoundKeeps(r: Reader, t: string, s: string, gaps: seq<seq<L.Op>>, validate: string -> Option<string>)
    requires InTouch(r, t, s, validate) && Proper(gaps, t, s)
    ensures InTouch(Round(r, t, s, gaps, validate), t, s, validate)
    ensures s in Round(r, t, s, gaps, validate).bus.QueuesOf(t)
  {
    hide L.Routed, Numbered, CatchUp, Agrees, L.Run, AllQuiet, Growing, ValidPayloads, LastRows, Walk, Subscribed;
    var last := MAX_PEEK_CHUNKS - 1;
    var c, c' := L.View(r.bus, t, s), AtPeek(r.bus, t, s, gaps, last);
    var found, first := Snapshots(r.bus, t, s, gaps), First(AtPeek(r.bus, t, s, gaps, 0));
    SnapshotsGrow(r.bus, t, s, gaps);
    PeeksGrow(r.bus, t, s, gaps, last, 0);
    PeekSubscribes(BeforePeek(r.bus, t, s, gaps, last), t, s);
    EmptyIfNew(c);
    StillAgrees(r.model, c.queue, if c.subscribed then First(c) else 0, first, validate, c.subscribed);
    RefreshAgrees(c.queue, found, first, r.model, validate);
    assert found[last] == c'.queue && c.queue <= found[last];
    Extends(c.queue, c'.queue, r.validated, BelowCursor(r.model.cursor, first),
            BelowCursor(CatchUp(r.model, found, 0, validate).model.cursor, first)) by {
      BelowIsZero(r.model, first);
      AgreesBelow(r.model, c.queue, first, validate);
      AgreesBelow(CatchUp(r.model, found, 0, validate).model, c'.queue, first, validate);
    }
  }

  lemma EmptyIfNew(c: L.Channel)
    requires Numbered(c)
    ensures !c.subscribed ==> c.queue == []
    ensures First(c) >= 0
  {
  }

  lemma BelowIsZero(m: Model, first: nat)
    ensures m == NEW_MODEL ==> BelowCursor(m.cursor, first) == 0
  {
  }

  lemma AgreesBelow(m: Model, log: seq<Message>, first: nat, validate: string -> Option<string>)
    requires Agrees(m, log, first, validate)
    ensures BelowCursor(m.cursor, first) <= |log|
  {
  }

  lemma Extends(queue: seq<Message>, longer: seq<Message>, looked: seq<Message>, below: nat, after: nat)
    requires queue <= longer && below <= |queue| && below <= after <= |longer| && looked == queue[..below]
    ensures looked + longer[below..after] == longer[..after]
  {
    assert queue[..below] == longer[..below];
  }

  /**
    From a fresh model, on any bus, through any number of refreshes with anything but a receive from
    the subscription before each peek: the model remembers the last valid payloads below its cursor,
    and each message below the cursor was looked at exactly once, in order, and no other ever was.
   */
  lemma {:induction false} RoundsKeep(b: BusState, t: string, s: string, rounds: seq<seq<seq<L.Op>>>, validate: string -> Option<string>)
    requires L.Routed(b) && Numbered(L.View(b, t, s))
    requires forall i | 0 <= i < |rounds| :: Proper(rounds[i], t, s)
    ensures InTouch(Rounds(Reader(b, NEW_MODEL, []), t, s, rounds, validate), t, s, validate)
  {
    if rounds == [] {
      NewAgrees(0, validate);
      var c := L.View(b, t, s);
      if c.subscribed {
        EmptyIfNew(c);
        FreshAgrees(c.queue, First(c), validate);
      }
    } else {
      hide L.View, L.Routed, Numbered, InTouch, Proper, Round;
      RoundsKeep(b, t, s, rounds[..|rounds| - 1], validate);
      RoundKeeps(Rounds(Reader(b, NEW_MODEL, []), t, s, rounds[..|rounds| - 1], validate), t, s, rounds[|rounds| - 1], validate);
    }
  }

  lemma FreshAgrees(log: seq<Message>, first: nat, validate: string -> Option<string>)
    ensures Agrees(NEW_MODEL, log, first, validate) && log[..BelowCursor(NEW_MODEL.cursor, first)] == []
  {
    assert log[..0] == [];
  }

  /**
    A listing after any such run: if the last refresh was not cut short, it shows what reading the
    whole subscription again, as one of its peeks found it, would show.
   */
  lemma ListingAfterRun(b: BusState, t: string, s: string, rounds: seq<seq<seq<L.Op>>>, gaps: seq<seq<L.Op>>,
                        validate: string -> Option<string>, limit: int) returns (k: nat)
    requires L.Routed(b) && Numbered(L.View(b, t, s)) && limit <= RECENT_WINDOW
    requires Proper(gaps, t, s) && forall i | 0 <= i < |rounds| :: Proper(rounds[i], t, s)
    requires var r := Rounds(Reader(b, NEW_MODEL, []), t, s, rounds, validate);
             !CatchUp(r.model, Snapshots(r.bus, t, s, gaps), 0, validate).truncated
    ensures k < MAX_PEEK_CHUNKS
    ensures var r := Rounds(Reader(b, NEW_MODEL, []), t, s, rounds, validate);
            Newest(Round(r, t, s, gaps, validate).model.recent, limit)
            == Newest(ValidPayloads(BeforePeek(r.bus, t, s, gaps, k).Queue(t, s), validate), limit)
  {
    hide L.Routed, Numbered, CatchUp, Agrees, L.Run, AllQuiet, Growing, ValidPayloads, LastRows, Newest, Subscribed, Rounds;
    var r := Rounds(Reader(b, NEW_MODEL, []), t, s, rounds, validate);
    RoundsKeep(b, t, s, rounds, validate);
    var c := L.View(r.bus, t, s);
    var first := First(AtPeek(r.bus, t, s, gaps, 0));
    SnapshotsGrow(r.bus, t, s, gaps);
    EmptyIfNew(c);
    StillAgrees(r.model, c.queue, if c.subscribed then First(c) else 0, first, validate, c.subscribed);
    k := UpToDate(c.queue, Snapshots(r.bus, t, s, gaps), first, r.model, validate, limit);
  }
}
