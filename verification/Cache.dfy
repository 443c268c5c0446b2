/**
  The in-memory cache: values with an optional expiry time, evicted lazily when a read finds
  them expired, and the capped history lists kept on top of it.
 */
module Cache {
  import opened Wrappers

  /** A stored value; `Nothing` is a stored null, which is not the same as an absent key. */
  datatype Value = Nothing | Flag(b: bool) | Text(text: string) | Rows(rows: seq<string>)

  datatype CacheState = CacheState(store: map<string, Value>, expiry: map<string, real>)

  const EMPTY_CACHE := CacheState(map[], map[])

  // ---------------------------------------------------------------------------
  // What a reader can see
  // ---------------------------------------------------------------------------

  /** A key is live until its expiry time, inclusive. */
  predicate Expired(c: CacheState, key: string, now: real) {
    key in c.expiry && now > c.expiry[key]
  }

  predicate Present(c: CacheState, key: string, now: real) {
    key in c.store && !Expired(c, key, now)
  }

  /** What reading `key` at time `now` gives: an absent, an expired and a null entry all read as nothing. */
  function Seen(c: CacheState, key: string, now: real): Value {
    if Present(c, key, now) then c.store[key] else Nothing
  }

  // ---------------------------------------------------------------------------
  // What the operations do
  // ---------------------------------------------------------------------------

  function Without(c: CacheState, key: string): CacheState {
    CacheState(c.store - {key}, c.expiry - {key})
  }

  function Evicted(c: CacheState, key: string, now: real): CacheState {
    if Expired(c, key, now) then Without(c, key) else c
  }

  function Stored(c: CacheState, key: string, value: Value, ttl: Option<real>, now: real): CacheState {
    CacheState(c.store[key := value], if ttl.Some? then c.expiry[key := now + ttl.value] else c.expiry - {key})
  }

  function Claimed(c: CacheState, key: string, value: Value, ttl: Option<real>, now: real): (CacheState, bool) {
    var c := Evicted(c, key, now);
    if key in c.store then (c, false) else (Stored(c, key, value, ttl, now), true)
  }

  /** Python's `rows[-n:]`, where `n` may also be zero or negative. */
  function LastRows<T>(rows: seq<T>, n: int): seq<T> {
    if n > 0 then (if n >= |rows| then rows else rows[|rows| - n..])
    else if -n >= |rows| then []
    else rows[-n..]
  }

  function RowsOf(v: Value): seq<string> {
    if v.Rows? then v.rows else []
  }

  function HistoryKey(symbol: string): string {
    "history:" + symbol
  }

  function Appended(c: CacheState, symbol: string, row: string, maxRows: int, now: real): CacheState {
    var key := HistoryKey(symbol);
    Stored(Evicted(c, key, now), key, Rows(LastRows(RowsOf(Seen(c, key, now)) + [row], maxRows)), None, now)
  }

  // ---------------------------------------------------------------------------
  // The object
  // ---------------------------------------------------------------------------

  class InMemoryCache {
    var store: map<string, Value>
    var expiry: map<string, real>

    function State(): CacheState
      reads this
    {
      CacheState(store, expiry)
    }

    constructor ()
      ensures State() == EMPTY_CACHE
    {
      store, expiry := map[], map[];
    }

    method Get(key: string, now: real) returns (value: Value)
      modifies this
      ensures value == Seen(old(State()), key, now)
      ensures State() == Evicted(old(State()), key, now)
    {
      if Expired(State(), key, now) {
        store, expiry := store - {key}, expiry - {key};
        return Nothing;
      }
      value := if key in store then store[key] else Nothing;
    }

    method Set(key: string, value: Value, ttl: Option<real>, now: real)
      modifies this
      ensures State() == Stored(old(State()), key, value, ttl, now)
    {
      store := store[key := value];
      if ttl.Some? {
        expiry := expiry[key := now + ttl.value];
      } else {
        expiry := expiry - {key};
      }
    }

    method SetIfAbsent(key: string, value: Value, ttl: Option<real>, now: real) returns (claimed: bool)
      modifies this
      ensures (State(), claimed) == Claimed(old(State()), key, value, ttl, now)
    {
      if Expired(State(), key, now) {
        store, expiry := store - {key}, expiry - {key};
      }
      if key in store {
        return false;
      }
      Set(key, value, ttl, now);
      claimed := true;
    }

    method Delete(key: string)
      modifies this
      ensures State() == Without(old(State()), key)
    {
      store, expiry := store - {key}, expiry - {key};
    }

    method AppendHistory(symbol: string, row: string, maxRows: int, now: real)
      modifies this
      ensures State() == Appended(old(State()), symbol, row, maxRows, now)
    {
      var history := Get(HistoryKey(symbol), now);
      var rows := RowsOf(history) + [row];
      Set(HistoryKey(symbol), Rows(LastRows(rows, maxRows)), None, now);
    }

    method GetHistory(symbol: string, now: real) returns (rows: seq<string>)
      modifies this
      ensures rows == RowsOf(Seen(old(State()), HistoryKey(symbol), now))
      ensures State() == Evicted(old(State()), HistoryKey(symbol), now)
    {
      var history := Get(HistoryKey(symbol), now);
      rows := RowsOf(history);
    }
  }

  // ---------------------------------------------------------------------------
  // Laws
  // ---------------------------------------------------------------------------

  /** Lazy eviction cannot be observed: no key reads differently, or is claimable differently, at any later time. */
  lemma EvictionIsInvisible(c: CacheState, key: string, now: real, other: string, later: real)
    requires later >= now
    ensures Seen(Evicted(c, key, now), other, later) == Seen(c, other, later)
    ensures Present(Evicted(c, key, now), other, later) <==> Present(c, other, later)
  {
  }

  /** A stored value reads back until its time is up, for ever if it has none, and other keys are untouched. */
  lemma StoredReadsBack(c: CacheState, key: string, value: Value, ttl: Option<real>, now: real, other: string, later: real)
    ensures Present(Stored(c, key, value, ttl, now), other, later)
            <==> (if other == key then ttl.None? || later <= now + ttl.value else Present(c, other, later))
    ensures Seen(Stored(c, key, value, ttl, now), other, later)
            == if other != key then Seen(c, other, later)
               else if ttl.None? || later <= now + ttl.value then value
               else Nothing
  {
  }

  /** A claim succeeds exactly on an absent or expired key; a failed claim changes nothing a reader can see. */
  lemma ClaimIsExclusive(c: CacheState, key: string, value: Value, ttl: Option<real>, now: real, other: string, later: real)
    requires later >= now
    ensures Claimed(c, key, value, ttl, now).1 <==> !Present(c, key, now)
    ensures var c' := Claimed(c, key, value, ttl, now).0;
            if Present(c, key, now) || other != key then
              Seen(c', other, later) == Seen(c, other, later) && (Present(c', other, later) <==> Present(c, other, later))
            else
              Present(c', key, later) <==> ttl.None? || later <= now + ttl.value
  {
  }

  // ---------------------------------------------------------------------------
  // Runs of cache operations
  // ---------------------------------------------------------------------------

  datatype Op =
    | OpGet(key: string)
    | OpSet(key: string, value: Value, ttl: Option<real>)
    | OpClaim(key: string, value: Value, ttl: Option<real>)
    | OpDelete(key: string)

  datatype Timed = Timed(op: Op, at: real)

  function Apply(c: CacheState, t: Timed): CacheState {
    match t.op
    case OpGet(key) => Evicted(c, key, t.at)
    case OpSet(key, value, ttl) => Stored(c, key, value, ttl, t.at)
    case OpClaim(key, value, ttl) => Claimed(c, key, value, ttl, t.at).0
    case OpDelete(key) => Without(c, key)
  }

  function Run(c: CacheState, ops: seq<Timed>): CacheState {
    if ops == [] then c else Apply(Run(c, ops[..|ops| - 1]), ops[|ops| - 1])
  }

  /** The operations happen in order, all within the lifetime of the lock. */
  predicate Within(ops: seq<Timed>, from: real, until: real) {
    ops != [] ==>
      var last := ops[|ops| - 1];
      from <= last.at <= until && Within(ops[..|ops| - 1], from, last.at)
  }

  predicate LeavesAlone(op: Op, key: string) {
    (op.OpSet? || op.OpDelete?) ==> op.key != key
  }

  /** The entry as the claim left it. */
  predicate Held(c: CacheState, key: string, value: Value, until: real) {
    key in c.store && c.store[key] == value && key in c.expiry && c.expiry[key] == until
  }

  lemma HeldStep(c: CacheState, key: string, value: Value, until: real, t: Timed)
    requires Held(c, key, value, until) && t.at <= until && LeavesAlone(t.op, key)
    ensures Held(Apply(c, t), key, value, until)
  {
  }

  /**
    A claimed lock stays claimed: until its time to live is over, whatever others do short of
    overwriting or deleting it, no further claim on it succeeds.
   */
  lemma {:induction false} LockExcludes(c: CacheState, key: string, value: Value, ttl: real, at: real, ops: seq<Timed>, until: real)
    requires Claimed(c, key, value, Some(ttl), at).1
    requires Within(ops, at, until) && at <= until <= at + ttl
    requires forall i | 0 <= i < |ops| :: LeavesAlone(ops[i].op, key)
    ensures var c' := Run(Claimed(c, key, value, Some(ttl), at).0, ops);
            Held(c', key, value, at + ttl) && !Claimed(c', key, value, Some(ttl), until).1
  {
    if ops != [] {
      hide Apply, Claimed;
      var n := |ops| - 1;
      assert LeavesAlone(ops[n].op, key);
      LockExcludes(c, key, value, ttl, at, ops[..n], ops[n].at);
      var before := Run(Claimed(c, key, value, Some(ttl), at).0, ops[..n]);
      HeldStep(before, key, value, at + ttl, ops[n]);
      HeldRefuses(Apply(before, ops[n]), key, value, ttl, at + ttl, until);
    }
  }

  lemma HeldRefuses(c: CacheState, key: string, value: Value, ttl: real, until: real, now: real)
    requires Held(c, key, value, until) && now <= until
    ensures !Claimed(c, key, value, Some(ttl), now).1
  {
  }

  // ---------------------------------------------------------------------------
  // History
  // ---------------------------------------------------------------------------

  /** Appending rows one at a time, each time keeping the last `maxRows`. */
  function AppendAll(c: CacheState, symbol: string, rows: seq<string>, maxRows: int, now: real): CacheState {
    if rows == [] then c
    else Appended(AppendAll(c, symbol, rows[..|rows| - 1], maxRows, now), symbol, rows[|rows| - 1], maxRows, now)
  }

  function History(c: CacheState, symbol: string, now: real): seq<string> {
    RowsOf(Seen(c, HistoryKey(symbol), now))
  }

  /** Cutting after every append keeps the same rows as cutting once at the end. */
  lemma {:induction false} HistoryIsLastRows(symbol: string, rows: seq<string>, maxRows: int, now: real)
    requires maxRows > 0
    ensures History(AppendAll(EMPTY_CACHE, symbol, rows, maxRows, now), symbol, now) == LastRows(rows, maxRows)
  {
    if rows != [] {
      hide Appended, History, LastRows;
      var before := AppendAll(EMPTY_CACHE, symbol, rows[..|rows| - 1], maxRows, now);
      HistoryIsLastRows(symbol, rows[..|rows| - 1], maxRows, now);
      AppendedHistory(before, symbol, rows[|rows| - 1], maxRows, now);
      LastOfLast(rows, maxRows);
    }
  }

  lemma LastOfLast<T>(rows: seq<T>, n: int)
    requires n > 0 && rows != []
    ensures LastRows(LastRows(rows[..|rows| - 1], n) + [rows[|rows| - 1]], n) == LastRows(rows, n)
  {
  }

  lemma AppendedHistory(c: CacheState, symbol: string, row: string, maxRows: int, now: real)
    ensures History(Appended(c, symbol, row, maxRows, now), symbol, now)
            == LastRows(History(c, symbol, now) + [row], maxRows)
  {
  }

  /** Every symbol has a history of its own: appending to one leaves the others alone. */
  lemma HistoriesApart(c: CacheState, symbol: string, row: string, maxRows: int, now: real, other: string)
    requires other != symbol
    ensures History(Appended(c, symbol, row, maxRows, now), other, now) == History(c, other, now)
  {
    var head := "history:";
    assert HistoryKey(symbol)[|head|..] == symbol && HistoryKey(other)[|head|..] == other;
    hide HistoryKey;
    EvictionIsInvisible(c, HistoryKey(symbol), now, HistoryKey(other), now);
  }

  lemma {:induction false} ZeroKeepsAll(symbol: string, rows: seq<string>, now: real)
    ensures History(AppendAll(EMPTY_CACHE, symbol, rows, 0, now), symbol, now) == rows
  {
    if rows != [] {
      ZeroKeepsAll(symbol, rows[..|rows| - 1], now);
      AppendedHistory(AppendAll(EMPTY_CACHE, symbol, rows[..|rows| - 1], 0, now), symbol, rows[|rows| - 1], 0, now);
    }
  }

  lemma {:induction false} NegativeKeepsNone(symbol: string, rows: seq<string>, maxRows: int, now: real)
    requires maxRows < 0
    ensures History(AppendAll(EMPTY_CACHE, symbol, rows, maxRows, now), symbol, now) == []
  {
    if rows != [] {
      NegativeKeepsNone(symbol, rows[..|rows| - 1], maxRows, now);
      AppendedHistory(AppendAll(EMPTY_CACHE, symbol, rows[..|rows| - 1], maxRows, now), symbol, rows[|rows| - 1], maxRows, now);
    }
  }

  /** The cap holds for every history exactly when it is not zero: `rows[-0:]` is the whole list. */
  lemma CapHolds(symbol: string, maxRows: nat, now: real)
    ensures maxRows > 0
            <==> forall rows :: |History(AppendAll(EMPTY_CACHE, symbol, rows, maxRows, now), symbol, now)| <= maxRows
  {
    if maxRows > 0 {
      forall rows
        ensures |History(AppendAll(EMPTY_CACHE, symbol, rows, maxRows, now), symbol, now)| <= maxRows
      {
        HistoryIsLastRows(symbol, rows, maxRows, now);
      }
    } else {
      ZeroKeepsAll(symbol, ["row"], now);
    }
  }
}
