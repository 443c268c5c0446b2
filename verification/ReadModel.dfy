/**
  The incremental read model behind the signal and alert listings: a cursor into the
  subscription and the newest valid payloads below it. Reading through it must give what
  reading the whole subscription again would give.
 */
module ReadModel {
  import opened Wrappers
  import opened Bus
  import opened Cache
  import L = BusLedger

  const RECENT_WINDOW := 500
  const PEEK_CHUNK := 100
  const MAX_PEEK_CHUNKS := 20

  // ---------------------------------------------------------------------------
  // The simple thing: every valid payload of a log, oldest first
  // ---------------------------------------------------------------------------

  function ValidPayloads(log: seq<Message>, validate: string -> Option<string>): seq<string> {
    if log == [] then []
    else
      var last := validate(log[|log| - 1].body);
      ValidPayloads(log[..|log| - 1], validate) + (if last.Some? then [last.value] else [])
  }

  lemma {:induction false} PayloadsConcat(a: seq<Message>, b: seq<Message>, validate: string -> Option<string>)
    ensures ValidPayloads(a + b, validate) == ValidPayloads(a, validate) + ValidPayloads(b, validate)
  {
    if b == [] {
      assert a + b == a;
    } else {
      assert (a + b)[..|a + b| - 1] == a + b[..|b| - 1];
      PayloadsConcat(a, b[..|b| - 1], validate);
    }
  }

  /** Wherever it stands in a log, a message gives what the validator makes of its body, and nothing if that is nothing. */
  lemma PayloadsAre(before: seq<Message>, m: Message, after: seq<Message>, validate: string -> Option<string>)
    ensures ValidPayloads(before + [m] + after, validate)
            == ValidPayloads(before, validate) + (if validate(m.body).Some? then [validate(m.body).value] else [])
               + ValidPayloads(after, validate)
  {
    PayloadsConcat(before + [m], after, validate);
    PayloadsConcat(before, [m], validate);
    assert [m][..0] == [];
  }

  /** The payloads of a log are those its messages validate to. */
  lemma {:induction false} PayloadsHold(log: seq<Message>, validate: string -> Option<string>, p: string)
    ensures p in ValidPayloads(log, validate) <==> exists i :: 0 <= i < |log| && validate(log[i].body) == Some(p)
  {
    if log != [] {
      var n := |log| - 1;
      PayloadsHold(log[..n], validate, p);
      assert log == log[..n] + [log[n]];
    }
  }

  function Reversed<T>(s: seq<T>): (r: seq<T>)
    ensures |r| == |s|
  {
    if s == [] then [] else Reversed(s[1..]) + [s[0]]
  }

  lemma {:induction false} ReversedAt<T>(s: seq<T>, i: nat)
    requires i < |s|
    ensures Reversed(s)[i] == s[|s| - 1 - i]
  {
    if i < |s| - 1 {
      ReversedAt(s[1..], i);
    }
  }

  /** A bounded queue that is extended keeps what it would keep if it were cut only once. */
  lemma LastOfConcat<T>(a: seq<T>, b: seq<T>, n: int)
    requires n > 0
    ensures LastRows(LastRows(a, n) + b, n) == LastRows(a + b, n)
  {
  }

  lemma LastOfLonger<T>(a: seq<T>, n: int, m: int)
    requires 0 < m <= n
    ensures LastRows(LastRows(a, n), m) == LastRows(a, m)
  {
  }

  // ---------------------------------------------------------------------------
  // How far one refresh gets
  // ---------------------------------------------------------------------------

  /**
    Peeks number `i` and later of one refresh, the subscription holding `lengths[i]` messages at
    peek `i`: how many messages lie below the cursor at the end, and whether the cap cut it short.
   */
  function Walk(below: nat, lengths: seq<nat>, i: nat): (nat, bool)
    decreases |lengths| - i
  {
    if i >= |lengths| then (below, true)
    else if lengths[i] < below + PEEK_CHUNK then (if lengths[i] > below then lengths[i] else below, false)
    else Walk(below + PEEK_CHUNK, lengths, i + 1)
  }

  function Lengths(snapshots: seq<seq<Message>>): (ls: seq<nat>)
    ensures |ls| == |snapshots|
  {
    seq(|snapshots|, i requires 0 <= i < |snapshots| => |snapshots[i]|)
  }

  // ---------------------------------------------------------------------------
  // The read model
  // ---------------------------------------------------------------------------

  /** The subscription as each peek of a refresh finds it: it grows at the end and loses nothing. */
  predicate Growing(log: seq<Message>, snapshots: seq<seq<Message>>, first: nat)
    requires |snapshots| > 0
  {
    && (forall i | 0 <= i < |snapshots| :: L.Consecutive(snapshots[i], first))
    && log <= snapshots[0]
    && (forall i, j | 0 <= i <= j < |snapshots| :: snapshots[i] <= snapshots[j])
  }

  function BelowCursor(cursor: Option<nat>, first: nat): nat {
    if cursor.Some? && cursor.value > first then cursor.value - first else 0
  }

  /** A peek at the cursor returns the next messages after those below it, whatever arrived meanwhile. */
  lemma PeekContinues(final: seq<Message>, snapshot: seq<Message>, first: nat, cursor: Option<nat>)
    requires snapshot <= final && L.Consecutive(snapshot, first) && BelowCursor(cursor, first) <= |snapshot|
    ensures var below := BelowCursor(cursor, first);
            var messages := Head(Since(snapshot, cursor), PEEK_CHUNK);
            && |messages| == (if |snapshot| < below + PEEK_CHUNK then |snapshot| - below else PEEK_CHUNK)
            && messages == final[below..below + |messages|]
            && (messages != [] ==> messages[|messages| - 1].sequenceNumber + 1 == first + below + |messages|)
  {
    var below := BelowCursor(cursor, first);
    L.SinceIsSuffix(snapshot, first, cursor);
    assert L.PeekStart(|snapshot|, first, cursor) == below;
    L.HeadOfSuffix(snapshot, below, PEEK_CHUNK);
    hide Since, Head, L.PeekStart;
    var end := if |snapshot| < below + PEEK_CHUNK then |snapshot| else below + PEEK_CHUNK;
    SamePart(snapshot, final, below, end);
    if end > below {
      assert snapshot[below..end][end - below - 1] == snapshot[end - 1];
      assert snapshot[end - 1].sequenceNumber == first + (end - 1);
    }
  }

  lemma SamePart(s: seq<Message>, f: seq<Message>, i: nat, j: nat)
    requires s <= f && i <= j <= |s|
    ensures s[i..j] == f[i..j]
  {
  }

  /** In the middle of a refresh that began with `start` messages below the cursor; `final` is the log as it ends up. */
  ghost predicate Mid(final: seq<Message>, first: nat, start: nat, cursor: Option<nat>, recent: seq<string>,
                      validated: seq<Message>, validate: string -> Option<string>)
  {
    && start <= BelowCursor(cursor, first) <= |final|
    && recent == LastRows(ValidPayloads(final[..BelowCursor(cursor, first)], validate), RECENT_WINDOW)
    && validated == final[start..BelowCursor(cursor, first)]
  }

  lemma Absorb(final: seq<Message>, snapshot: seq<Message>, first: nat, start: nat, cursor: Option<nat>, recent: seq<string>,
               validated: seq<Message>, validate: string -> Option<string>)
    requires Mid(final, first, start, cursor, recent, validated, validate)
    requires snapshot <= final && L.Consecutive(snapshot, first) && BelowCursor(cursor, first) <= |snapshot|
    ensures var below := BelowCursor(cursor, first);
            var messages := Head(Since(snapshot, cursor), PEEK_CHUNK);
            && |messages| == (if |snapshot| < below + PEEK_CHUNK then |snapshot| - below else PEEK_CHUNK)
            && (messages != [] ==>
                  var next := Some(messages[|messages| - 1].sequenceNumber + 1);
                  && BelowCursor(next, first) == below + |messages|
                  && Mid(final, first, start, next, LastRows(recent + ValidPayloads(messages, validate), RECENT_WINDOW),
                         validated + messages, validate))
  {
    hide L.Consecutive, Since, Head, ValidPayloads, LastRows;
    var below := BelowCursor(cursor, first);
    var messages := Head(Since(snapshot, cursor), PEEK_CHUNK);
    PeekContinues(final, snapshot, first, cursor);
    assert final[..below] + messages == final[..below + |messages|];
    assert final[start..below] + messages == final[start..below + |messages|];
    PayloadsConcat(final[..below], messages, validate);
    LastOfConcat(ValidPayloads(final[..below], validate), ValidPayloads(messages, validate), RECENT_WINDOW);
  }

  lemma MidStart(log: seq<Message>, final: seq<Message>, first: nat, cursor: Option<nat>, recent: seq<string>,
                 validate: string -> Option<string>)
    requires log <= final && BelowCursor(cursor, first) <= |log|
    requires recent == LastRows(ValidPayloads(log[..BelowCursor(cursor, first)], validate), RECENT_WINDOW)
    ensures Mid(final, first, BelowCursor(cursor, first), cursor, recent, [], validate)
  {
    var below := BelowCursor(cursor, first);
    assert log[..below] == final[..below];
    assert final[below..below] == [];
  }

  lemma SnapshotOk(log: seq<Message>, snapshots: seq<seq<Message>>, first: nat, i: nat)
    requires |snapshots| == MAX_PEEK_CHUNKS && Growing(log, snapshots, first) && i < MAX_PEEK_CHUNKS
    ensures snapshots[i] <= snapshots[MAX_PEEK_CHUNKS - 1] && L.Consecutive(snapshots[i], first)
    ensures |log| <= |snapshots[i]| && log <= snapshots[MAX_PEEK_CHUNKS - 1]
    ensures i > 0 ==> |snapshots[i - 1]| <= |snapshots[i]|
  {
    assert snapshots[0] <= snapshots[i];
    assert i > 0 ==> snapshots[i - 1] <= snapshots[i];
  }

  lemma WalkOn(below: nat, lengths: seq<nat>, i: nat, taken: nat)
    requires i < |lengths| && below <= lengths[i]
    requires taken == if lengths[i] < below + PEEK_CHUNK then lengths[i] - below else PEEK_CHUNK
    ensures taken < PEEK_CHUNK ==> Walk(below, lengths, i) == (below + taken, false)
    ensures taken == PEEK_CHUNK ==> Walk(below, lengths, i) == Walk(below + taken, lengths, i + 1)
  {
  }

  /** What a read model remembers. */
  datatype Model = Model(recent: seq<string>, cursor: Option<nat>)

  const NEW_MODEL := Model([], None)

  /** What a refresh comes to: the model, the messages it looked at, and whether the cap cut it short. */
  datatype Caught = Caught(model: Model, validated: seq<Message>, truncated: bool)

  /** Peeks number `i` and later of a refresh, the subscription being `snapshots[i]` at peek `i`. */
  function CatchUp(m: Model, snapshots: seq<seq<Message>>, i: nat, validate: string -> Option<string>): Caught
    decreases |snapshots| - i
  {
    if i >= |snapshots| then Caught(m, [], true)
    else
      var messages := Head(Since(snapshots[i], m.cursor), PEEK_CHUNK);
      if messages == [] then Caught(m, [], false)
      else
        var next := Model(LastRows(m.recent + ValidPayloads(messages, validate), RECENT_WINDOW),
                          Some(messages[|messages| - 1].sequenceNumber + 1));
        if |messages| < PEEK_CHUNK then Caught(next, messages, false)
        else
          var rest := CatchUp(next, snapshots, i + 1, validate);
          rest.(validated := messages + rest.validated)
  }

  /** From the middle of a refresh to its end. */
  lemma {:induction false} CatchesUp(log: seq<Message>, snapshots: seq<seq<Message>>, first: nat, start: nat, m: Model,
                                     validated: seq<Message>, i: nat, validate: string -> Option<string>)
    requires |snapshots| == MAX_PEEK_CHUNKS && Growing(log, snapshots, first) && i <= MAX_PEEK_CHUNKS
    requires Mid(snapshots[MAX_PEEK_CHUNKS - 1], first, start, m.cursor, m.recent, validated, validate)
    requires i < MAX_PEEK_CHUNKS ==> BelowCursor(m.cursor, first) <= |snapshots[i]|
    ensures var got := CatchUp(m, snapshots, i, validate);
            && Mid(snapshots[MAX_PEEK_CHUNKS - 1], first, start, got.model.cursor, got.model.recent, validated + got.validated, validate)
            && (BelowCursor(got.model.cursor, first), got.truncated) == Walk(BelowCursor(m.cursor, first), Lengths(snapshots), i)
    decreases MAX_PEEK_CHUNKS - i
  {
    hide L.Consecutive, Since, Head, ValidPayloads, LastRows, Mid, Growing, BelowCursor;
    var final, below := snapshots[MAX_PEEK_CHUNKS - 1], BelowCursor(m.cursor, first);
    if i < MAX_PEEK_CHUNKS {
      SnapshotOk(log, snapshots, first, i);
      Absorb(final, snapshots[i], first, start, m.cursor, m.recent, validated, validate);
      var messages := Head(Since(snapshots[i], m.cursor), PEEK_CHUNK);
      WalkOn(below, Lengths(snapshots), i, |messages|);
      if messages == [] {
        assert validated + [] == validated;
      } else {
        var next := Model(LastRows(m.recent + ValidPayloads(messages, validate), RECENT_WINDOW),
                          Some(messages[|messages| - 1].sequenceNumber + 1));
        if |messages| == PEEK_CHUNK {
          if i + 1 < MAX_PEEK_CHUNKS {
            SnapshotOk(log, snapshots, first, i + 1);
          }
          CatchesUp(log, snapshots, first, start, next, validated + messages, i + 1, validate);
          var rest := CatchUp(next, snapshots, i + 1, validate).validated;
          assert validated + messages + rest == validated + (messages + rest);
        }
      }
    } else {
      assert validated + [] == validated;
    }
  }

  /** A refresh keeps the model in agreement with the log, and looks exactly at what came below the cursor. */
  lemma RefreshAgrees(log: seq<Message>, snapshots: seq<seq<Message>>, first: nat, m: Model, validate: string -> Option<string>)
    requires |snapshots| == MAX_PEEK_CHUNKS && Growing(log, snapshots, first) && Agrees(m, log, first, validate)
    ensures var got, final := CatchUp(m, snapshots, 0, validate), snapshots[MAX_PEEK_CHUNKS - 1];
            && Agrees(got.model, final, first, validate)
            && BelowCursor(m.cursor, first) <= BelowCursor(got.model.cursor, first)
            && got.validated == final[BelowCursor(m.cursor, first)..BelowCursor(got.model.cursor, first)]
            && (BelowCursor(got.model.cursor, first), got.truncated) == Walk(BelowCursor(m.cursor, first), Lengths(snapshots), 0)
  {
    hide ValidPayloads, LastRows, Growing, Walk, CatchUp, BelowCursor;
    SnapshotOk(log, snapshots, first, 0);
    MidStart(log, snapshots[MAX_PEEK_CHUNKS - 1], first, m.cursor, m.recent, validate);
    CatchesUp(log, snapshots, first, BelowCursor(m.cursor, first), m, [], 0, validate);
    assert [] + CatchUp(m, snapshots, 0, validate).validated == CatchUp(m, snapshots, 0, validate).validated;
  }

  /** The model remembers the newest valid payloads below its cursor. */
  ghost predicate Agrees(m: Model, log: seq<Message>, first: nat, validate: string -> Option<string>) {
    && BelowCursor(m.cursor, first) <= |log|
    && m.recent == LastRows(ValidPayloads(log[..BelowCursor(m.cursor, first)], validate), RECENT_WINDOW)
  }

  class RecentPayloads {
    const validate: string -> Option<string>
    var recent: seq<string>
    var cursor: Option<nat>

    constructor (validate: string -> Option<string>)
      ensures Value() == NEW_MODEL && this.validate == validate
    {
      this.validate := validate;
      recent, cursor := [], None;
    }

    function Value(): Model
      reads this
    {
      Model(recent, cursor)
    }

    /**
      Catches up with the subscription, in at most `MAX_PEEK_CHUNKS` peeks between which messages may
      arrive. `validated` lists the messages it looked at.
     */
    method Refresh(snapshots: seq<seq<Message>>)
      returns (payloads: seq<string>, truncated: bool, ghost validated: seq<Message>)
      requires |snapshots| == MAX_PEEK_CHUNKS
      modifies this
      ensures Caught(Value(), validated, truncated) == CatchUp(old(Value()), snapshots, 0, validate)
      ensures payloads == recent
    {
      hide Since, Head, ValidPayloads, LastRows;
      ghost var start := Value();
      validated, truncated := [], true;
      for i := 0 to MAX_PEEK_CHUNKS
        invariant truncated
        invariant var rest := CatchUp(Value(), snapshots, i, validate);
                  CatchUp(start, snapshots, 0, validate) == rest.(validated := validated + rest.validated)
      {
        var messages := Head(Since(snapshots[i], cursor), PEEK_CHUNK);
        if messages == [] {
          truncated := false;
          break;
        }
        ghost var before := Value();
        recent := LastRows(recent + ValidPayloads(messages, validate), RECENT_WINDOW);
        cursor := Some(messages[|messages| - 1].sequenceNumber + 1);
        ghost var rest := CatchUp(Value(), snapshots, i + 1, validate);
        assert validated + (messages + rest.validated) == validated + messages + rest.validated;
        validated := validated + messages;
        if |messages| < PEEK_CHUNK {
          truncated := false;
          break;
        }
      }
      payloads := recent;
      assert validated + [] == validated;
    }
  }

  // ---------------------------------------------------------------------------
  // Reading through the model
  // ---------------------------------------------------------------------------

  /** A listing of the newest `limit` payloads, newest first, from what a refresh returned. */
  function Newest(payloads: seq<string>, limit: int): seq<string> {
    if limit <= 0 then [] else Reversed(LastRows(payloads, limit))
  }

  /** A listing begins with the newest payload and goes back one by one, no further than its limit. */
  lemma NewestAt(payloads: seq<string>, limit: int)
    ensures var listing := Newest(payloads, limit);
            && |listing| == (if limit <= 0 then 0 else if limit < |payloads| then limit else |payloads|)
            && forall i | 0 <= i < |listing| :: listing[i] == payloads[|payloads| - 1 - i]
  {
    if limit > 0 {
      var last := LastRows(payloads, limit);
      forall i | 0 <= i < |last|
        ensures Reversed(last)[i] == payloads[|payloads| - 1 - i]
      {
        ReversedAt(last, i);
      }
    }
  }

  /** Within the window, the listing is what re-reading the whole log would give. */
  lemma ListingIsExact(log: seq<Message>, validate: string -> Option<string>, limit: int)
    requires limit <= RECENT_WINDOW
    ensures Newest(LastRows(ValidPayloads(log, validate), RECENT_WINDOW), limit) == Newest(ValidPayloads(log, validate), limit)
  {
    if limit > 0 {
      LastOfLonger(ValidPayloads(log, validate), RECENT_WINDOW, limit);
    }
  }

  /** Beyond the window the listing is cut at the window, so it is exact there only if that many payloads do not exist. */
  lemma ListingBeyondWindow(log: seq<Message>, validate: string -> Option<string>, limit: int)
    requires limit > RECENT_WINDOW
    ensures Newest(LastRows(ValidPayloads(log, validate), RECENT_WINDOW), limit) == Newest(ValidPayloads(log, validate), limit)
            <==> |ValidPayloads(log, validate)| <= RECENT_WINDOW
  {
    var all := ValidPayloads(log, validate);
    assert |LastRows(all, RECENT_WINDOW)| <= RECENT_WINDOW;
    assert |all| > RECENT_WINDOW ==> |LastRows(all, limit)| > RECENT_WINDOW;
  }

  method RecentPayloadsNewestFirst(model: RecentPayloads, snapshots: seq<seq<Message>>, limit: int)
    returns (listing: seq<string>)
    requires |snapshots| == MAX_PEEK_CHUNKS
    modifies model
    ensures limit <= 0 ==> listing == [] && model.Value() == old(model.Value())
    ensures limit > 0 ==>
              && model.Value() == CatchUp(old(model.Value()), snapshots, 0, model.validate).model
              && listing == Newest(model.recent, limit)
  {
    if limit <= 0 {
      return [];
    }
    var payloads, truncated;
    ghost var validated;
    payloads, truncated, validated := model.Refresh(snapshots);
    listing := Reversed(LastRows(payloads, limit));
  }

  /** A refresh that the cap does not cut short has read everything the subscription held at one of its peeks. */
  lemma UpToDate(log: seq<Message>, snapshots: seq<seq<Message>>, first: nat, m: Model, validate: string -> Option<string>, limit: int)
    returns (k: nat)
    requires |snapshots| == MAX_PEEK_CHUNKS && Growing(log, snapshots, first) && Agrees(m, log, first, validate)
    requires limit <= RECENT_WINDOW && !CatchUp(m, snapshots, 0, validate).truncated
    ensures k < MAX_PEEK_CHUNKS
    ensures Newest(CatchUp(m, snapshots, 0, validate).model.recent, limit) == Newest(ValidPayloads(snapshots[k], validate), limit)
  {
    hide ValidPayloads, CatchUp, Newest, LastRows, Growing, Walk;
    RefreshAgrees(log, snapshots, first, m, validate);
    LengthsGrow(log, snapshots, first, BelowCursor(m.cursor, first));
    k := WalkEnds(BelowCursor(m.cursor, first), Lengths(snapshots), 0);
    SnapshotOk(log, snapshots, first, k);
    assert snapshots[MAX_PEEK_CHUNKS - 1][..|snapshots[k]|] == snapshots[k];
    ListingIsExact(snapshots[k], validate, limit);
  }

  lemma LengthsGrow(log: seq<Message>, snapshots: seq<seq<Message>>, first: nat, below: nat)
    requires |snapshots| == MAX_PEEK_CHUNKS && Growing(log, snapshots, first) && below <= |log|
    ensures forall j | 0 <= j < MAX_PEEK_CHUNKS :: below <= Lengths(snapshots)[j]
    ensures forall j, l | 0 <= j <= l < MAX_PEEK_CHUNKS :: Lengths(snapshots)[j] <= Lengths(snapshots)[l]
  {
    forall j, l | 0 <= j <= l < MAX_PEEK_CHUNKS
      ensures |snapshots[j]| <= |snapshots[l]| && |log| <= |snapshots[j]|
    {
      assert snapshots[j] <= snapshots[l] && snapshots[0] <= snapshots[j];
    }
  }

  /** A refresh that is not cut short ends at the end of the subscription as its last peek found it. */
  lemma {:induction false} WalkEnds(below: nat, lengths: seq<nat>, i: nat) returns (k: nat)
    requires !Walk(below, lengths, i).1
    requires forall j | i <= j < |lengths| :: below <= lengths[j]
    requires forall j, l | 0 <= j <= l < |lengths| :: lengths[j] <= lengths[l]
    ensures k < |lengths| && Walk(below, lengths, i).0 == lengths[k]
    decreases |lengths| - i
  {
    if i < |lengths| && lengths[i] >= below + PEEK_CHUNK {
      k := WalkEnds(below + PEEK_CHUNK, lengths, i + 1);
    } else {
      k := i;
    }
  }

  // ---------------------------------------------------------------------------
  // A backlog nobody adds to
  // ---------------------------------------------------------------------------

  function Refreshed(below: nat, n: nat): nat {
    Walk(below, seq(MAX_PEEK_CHUNKS, _ => n), 0).0
  }

  lemma {:induction false} WalkStatic(below: nat, n: nat, i: nat)
    requires below <= n && i <= MAX_PEEK_CHUNKS
    ensures Walk(below, seq(MAX_PEEK_CHUNKS, _ => n), i).0
            == if below + PEEK_CHUNK * (MAX_PEEK_CHUNKS - i) < n then below + PEEK_CHUNK * (MAX_PEEK_CHUNKS - i) else n
    decreases MAX_PEEK_CHUNKS - i
  {
    var lengths := seq(MAX_PEEK_CHUNKS, _ => n);
    if i < MAX_PEEK_CHUNKS {
      assert lengths[i] == n;
      if below + PEEK_CHUNK <= n {
        WalkStatic(below + PEEK_CHUNK, n, i + 1);
      }
    }
  }

  /** Where the cursor is after so many refreshes. */
  function AfterRefreshes(n: nat, times: nat): nat {
    if times == 0 then 0 else Refreshed(AfterRefreshes(n, times - 1), n)
  }

  /** A backlog of `n` messages is caught up after `times` refreshes exactly when they can hold it: 2000 messages each. */
  lemma {:induction false} BacklogCaughtUp(n: nat, times: nat)
    ensures AfterRefreshes(n, times) <= n
    ensures AfterRefreshes(n, times) == if n <= 2000 * times then n else 2000 * times
    ensures AfterRefreshes(n, times) == n <==> times >= (n + 1999) / 2000
  {
    if times > 0 {
      BacklogCaughtUp(n, times - 1);
      WalkStatic(AfterRefreshes(n, times - 1), n, 0);
    }
  }
}
