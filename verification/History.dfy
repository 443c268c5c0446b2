/**
  Market history: rows of the time-series store merged with the rows cached since, one row per
  key, ordered by time and cut to the newest. Rows carry parsed timestamps; a row whose
  timestamp does not parse never gets this far.
 */
module History {
  import opened Wrappers
  import opened Cache

  datatype Row = Row(eventId: string, symbol: string, ts: int, body: string)

  /** What identifies a row; the timestamp is part of it. */
  datatype Key = Key(eventId: string, symbol: string, ts: int)

  function KeyOf(r: Row): Key {
    Key(r.eventId, r.symbol, r.ts)
  }

  // ---------------------------------------------------------------------------
  // Ordering by time, ties in their old order
  // ---------------------------------------------------------------------------

  function Insert(s: seq<Row>, r: Row): (t: seq<Row>)
    ensures |t| == |s| + 1
  {
    if s == [] || s[|s| - 1].ts <= r.ts then s + [r]
    else Insert(s[..|s| - 1], r) + [s[|s| - 1]]
  }

  function Sort(rows: seq<Row>): (t: seq<Row>)
    ensures |t| == |rows|
  {
    if rows == [] then [] else Insert(Sort(rows[..|rows| - 1]), rows[|rows| - 1])
  }

  predicate Sorted(s: seq<Row>) {
    forall i, j | 0 <= i <= j < |s| :: s[i].ts <= s[j].ts
  }

  lemma {:induction false} InsertPermutes(s: seq<Row>, r: Row)
    ensures multiset(Insert(s, r)) == multiset(s) + multiset{r}
  {
    if s != [] && s[|s| - 1].ts > r.ts {
      var n := |s| - 1;
      InsertPermutes(s[..n], r);
      assert s == s[..n] + [s[n]];
    }
  }

  /** No row of `s` is newer than `ts`. */
  predicate UpTo(s: seq<Row>, ts: int) {
    forall i | 0 <= i < |s| :: s[i].ts <= ts
  }

  lemma {:induction false} InsertUpTo(s: seq<Row>, r: Row, ts: int)
    requires UpTo(s, ts) && r.ts <= ts
    ensures UpTo(Insert(s, r), ts)
  {
    if s != [] && s[|s| - 1].ts > r.ts {
      InsertUpTo(s[..|s| - 1], r, ts);
    }
  }

  lemma SortedSnoc(s: seq<Row>, x: Row)
    requires Sorted(s) && UpTo(s, x.ts)
    ensures Sorted(s + [x])
  {
  }

  lemma {:induction false} InsertSorts(s: seq<Row>, r: Row)
    requires Sorted(s)
    ensures Sorted(Insert(s, r))
    ensures multiset(Insert(s, r)) == multiset(s) + multiset{r}
  {
    InsertPermutes(s, r);
    if s != [] {
      var n := |s| - 1;
      if s[n].ts > r.ts {
        InsertSorts(s[..n], r);
        InsertUpTo(s[..n], r, s[n].ts);
        SortedSnoc(Insert(s[..n], r), s[n]);
      } else {
        SortedSnoc(s, r);
      }
    }
  }

  lemma {:induction false} SortSorts(rows: seq<Row>)
    ensures Sorted(Sort(rows))
    ensures multiset(Sort(rows)) == multiset(rows)
  {
    if rows != [] {
      var n := |rows| - 1;
      SortSorts(rows[..n]);
      InsertSorts(Sort(rows[..n]), rows[n]);
      assert rows == rows[..n] + [rows[n]];
    }
  }

  lemma {:induction false} SortOfSorted(s: seq<Row>)
    requires Sorted(s)
    ensures Sort(s) == s
  {
    if s != [] {
      var n := |s| - 1;
      SortOfSorted(s[..n]);
      assert s == s[..n] + [s[n]];
    }
  }

  /** The rows of one instant, in order. */
  function AtTime(rows: seq<Row>, ts: int): seq<Row> {
    if rows == [] then []
    else AtTime(rows[..|rows| - 1], ts) + (if rows[|rows| - 1].ts == ts then [rows[|rows| - 1]] else [])
  }

  lemma AtTimeSnoc(rows: seq<Row>, r: Row, ts: int)
    ensures AtTime(rows + [r], ts) == AtTime(rows, ts) + (if r.ts == ts then [r] else [])
  {
    assert (rows + [r])[..|rows|] == rows;
  }

  lemma {:induction false} InsertIsStable(s: seq<Row>, r: Row, ts: int)
    ensures AtTime(Insert(s, r), ts) == AtTime(s, ts) + (if r.ts == ts then [r] else [])
  {
    if s == [] || s[|s| - 1].ts <= r.ts {
      AtTimeSnoc(s, r, ts);
    } else {
      InsertIsStable(s[..|s| - 1], r, ts);
      AtTimeSnoc(Insert(s[..|s| - 1], r), s[|s| - 1], ts);
    }
  }

  /** Rows of the same instant stay in the order they came. */
  lemma {:induction false} SortIsStable(rows: seq<Row>, ts: int)
    ensures AtTime(Sort(rows), ts) == AtTime(rows, ts)
  {
    if rows != [] {
      SortIsStable(rows[..|rows| - 1], ts);
      InsertIsStable(Sort(rows[..|rows| - 1]), rows[|rows| - 1], ts);
    }
  }

  // ---------------------------------------------------------------------------
  // One row per key
  // ---------------------------------------------------------------------------

  predicate DistinctKeys(rows: seq<Row>) {
    forall i, j | 0 <= i < j < |rows| :: KeyOf(rows[i]) != KeyOf(rows[j])
  }

  predicate HasKey(rows: seq<Row>, k: Key) {
    exists i | 0 <= i < |rows| :: KeyOf(rows[i]) == k
  }

  /** Replaces the row with the key of `r`, where it stands. */
  function Replace(rows: seq<Row>, r: Row): (t: seq<Row>)
    ensures |t| == |rows|
  {
    if rows == [] then []
    else
      var last := rows[|rows| - 1];
      Replace(rows[..|rows| - 1], r) + [if KeyOf(last) == KeyOf(r) then r else last]
  }

  /** Assigning to a dictionary that remembers insertion order: a known key keeps its place. */
  function Put(rows: seq<Row>, r: Row): seq<Row> {
    if HasKey(rows, KeyOf(r)) then Replace(rows, r) else rows + [r]
  }

  function PutAll(rows: seq<Row>, more: seq<Row>): seq<Row> {
    if more == [] then rows else Put(PutAll(rows, more[..|more| - 1]), more[|more| - 1])
  }

  function Dedupe(rows: seq<Row>): seq<Row> {
    PutAll([], rows)
  }

  method DedupeRows(rows: seq<Row>) returns (deduped: seq<Row>)
    ensures deduped == Dedupe(rows)
  {
    deduped := [];
    for i := 0 to |rows|
      invariant deduped == PutAll([], rows[..i])
    {
      assert rows[..i + 1][..i] == rows[..i];
      deduped := Put(deduped, rows[i]);
    }
    assert rows[..|rows|] == rows;
  }

  lemma {:induction false} ReplaceAt(rows: seq<Row>, r: Row, i: nat)
    requires i < |rows|
    ensures Replace(rows, r)[i] == if KeyOf(rows[i]) == KeyOf(r) then r else rows[i]
    ensures KeyOf(Replace(rows, r)[i]) == KeyOf(rows[i]) && Replace(rows, r)[i].ts == rows[i].ts
  {
    if i < |rows| - 1 {
      ReplaceAt(rows[..|rows| - 1], r, i);
    }
  }

  lemma ReplaceAll(rows: seq<Row>, r: Row)
    ensures forall i | 0 <= i < |rows| :: Replace(rows, r)[i] == if KeyOf(rows[i]) == KeyOf(r) then r else rows[i]
  {
    forall i | 0 <= i < |rows|
      ensures Replace(rows, r)[i] == if KeyOf(rows[i]) == KeyOf(r) then r else rows[i]
    {
      ReplaceAt(rows, r, i);
    }
  }

  lemma PutKeeps(rows: seq<Row>, r: Row, k: Key)
    requires DistinctKeys(rows)
    ensures DistinctKeys(Put(rows, r))
    ensures HasKey(Put(rows, r), k) <==> HasKey(rows, k) || k == KeyOf(r)
  {
    ReplaceAll(rows, r);
    var t := Put(rows, r);
    if HasKey(rows, KeyOf(r)) {
      assert forall i | 0 <= i < |rows| :: KeyOf(t[i]) == KeyOf(rows[i]);
      if HasKey(rows, k) {
        var i :| 0 <= i < |rows| && KeyOf(rows[i]) == k;
        assert KeyOf(t[i]) == k;
      }
      if HasKey(t, k) {
        var i :| 0 <= i < |t| && KeyOf(t[i]) == k;
        assert KeyOf(rows[i]) == k;
      }
    } else {
      assert t[|rows|] == r;
      if HasKey(rows, k) {
        var i :| 0 <= i < |rows| && KeyOf(rows[i]) == k;
        assert KeyOf(t[i]) == k;
      }
    }
  }

  lemma {:induction false} PutAllKeeps(rows: seq<Row>, more: seq<Row>, k: Key)
    requires DistinctKeys(rows)
    ensures DistinctKeys(PutAll(rows, more))
    ensures HasKey(PutAll(rows, more), k) <==> HasKey(rows, k) || HasKey(more, k)
  {
    if more == [] {
    } else {
      var n := |more| - 1;
      PutAllKeeps(rows, more[..n], k);
      PutKeeps(PutAll(rows, more[..n]), more[n], k);
      assert HasKey(more, k) <==> HasKey(more[..n], k) || KeyOf(more[n]) == k by {
        assert more == more[..n] + [more[n]];
        if HasKey(more[..n], k) {
          var i :| 0 <= i < n && KeyOf(more[..n][i]) == k;
          assert KeyOf(more[i]) == k;
        }
        if HasKey(more, k) && KeyOf(more[n]) != k {
          var i :| 0 <= i < |more| && KeyOf(more[i]) == k;
          assert KeyOf(more[..n][i]) == k;
        }
      }
    }
  }

  /** The last row with a key, if there is one. */
  function LastWith(rows: seq<Row>, k: Key): Option<Row> {
    if rows == [] then None
    else if KeyOf(rows[|rows| - 1]) == k then Some(rows[|rows| - 1])
    else LastWith(rows[..|rows| - 1], k)
  }

  lemma MemberHasKey(rows: seq<Row>, x: Row)
    requires x in rows
    ensures HasKey(rows, KeyOf(x))
  {
    var i :| 0 <= i < |rows| && rows[i] == x;
    assert KeyOf(rows[i]) == KeyOf(x);
  }

  lemma PutMember(rows: seq<Row>, r: Row, x: Row)
    requires DistinctKeys(rows)
    ensures x in Put(rows, r) <==> x == r || (x in rows && KeyOf(x) != KeyOf(r))
  {
    ReplaceAll(rows, r);
    var t := Put(rows, r);
    if HasKey(rows, KeyOf(r)) {
      var j :| 0 <= j < |rows| && KeyOf(rows[j]) == KeyOf(r);
      assert t[j] == r;
      if x in rows && KeyOf(x) != KeyOf(r) {
        var i :| 0 <= i < |rows| && rows[i] == x;
        assert t[i] == x;
      }
    } else if x in rows {
      MemberHasKey(rows, x);
    }
  }

  /** Deduplication keeps for each key exactly the last row that has it, so a cached row wins over a stored one. */
  lemma {:induction false} DedupeKeepsLast(rows: seq<Row>, x: Row)
    ensures DistinctKeys(Dedupe(rows))
    ensures x in Dedupe(rows) <==> LastWith(rows, KeyOf(x)) == Some(x)
  {
    PutAllKeeps([], rows, KeyOf(x));
    if rows != [] {
      var n := |rows| - 1;
      DedupeKeepsLast(rows[..n], x);
      PutMember(Dedupe(rows[..n]), rows[n], x);
    }
  }

  // ---------------------------------------------------------------------------
  // The store and the service
  // ---------------------------------------------------------------------------

  predicate InRange(r: Row, symbol: string, frm: int, to: int) {
    r.symbol == symbol && frm <= r.ts <= to
  }

  function Matching(rows: seq<Row>, symbol: string, frm: int, to: int): seq<Row> {
    if rows == [] then []
    else
      Matching(rows[..|rows| - 1], symbol, frm, to)
      + (if InRange(rows[|rows| - 1], symbol, frm, to) then [rows[|rows| - 1]] else [])
  }

  /** A limited store query: the newest `limit` of the matching rows, oldest first; unlimited, all of them as they came. */
  function Limited(rows: seq<Row>, limit: Option<int>): seq<Row> {
    if limit.None? then rows else if limit.value <= 0 then [] else LastRows(Sort(rows), limit.value)
  }

  class InMemoryTimeSeriesStore {
    var ticks: seq<Row>

    constructor ()
      ensures ticks == []
    {
      ticks := [];
    }

    method Ingest(row: Row)
      modifies this
      ensures ticks == old(ticks) + [row]
    {
      ticks := ticks + [row];
    }

    method History(symbol: string, frm: int, to: int, limit: Option<int>) returns (result: seq<Row>)
      ensures result == Limited(Matching(ticks, symbol, frm, to), limit)
    {
      result := [];
      for i := 0 to |ticks|
        invariant result == Matching(ticks[..i], symbol, frm, to)
      {
        assert ticks[..i + 1][..i] == ticks[..i];
        if ticks[i].symbol == symbol && frm <= ticks[i].ts <= to {
          result := result + [ticks[i]];
        }
      }
      assert ticks[..|ticks|] == ticks;
      if limit.Some? {
        if limit.value <= 0 {
          return [];
        }
        result := LastRows(Sort(result), limit.value);
      }
    }
  }

  /** What the history route answers: the store's limited rows with the cached ones over them, cut once more. */
  function Answer(stored: seq<Row>, cached: seq<Row>, limit: Option<int>): seq<Row> {
    var ordered := Sort(Dedupe(Limited(stored, limit) + cached));
    if limit.None? then ordered else if limit.value > 0 then LastRows(ordered, limit.value) else []
  }

  /** The simple thing: merge everything, and cut at the end. */
  function Reference(stored: seq<Row>, cached: seq<Row>, limit: Option<int>): seq<Row> {
    var ordered := Sort(Dedupe(stored + cached));
    if limit.None? then ordered else if limit.value > 0 then LastRows(ordered, limit.value) else []
  }
}
