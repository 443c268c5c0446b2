/**
  Pushing the limit of a history query down into the store: when the answer is still the one a
  full merge would give.
 */
module HistoryMerge {
  import opened Wrappers
  import opened Cache
  import opened History

  // ---------------------------------------------------------------------------
  // Sorting and putting commute
  // ---------------------------------------------------------------------------

  /** Putting a row into rows kept in time order. */
  function SortedPut(s: seq<Row>, r: Row): seq<Row> {
    if HasKey(s, KeyOf(r)) then Replace(s, r) else Insert(s, r)
  }

  function SortedPutAll(s: seq<Row>, more: seq<Row>): seq<Row> {
    if more == [] then s else SortedPut(SortedPutAll(s, more[..|more| - 1]), more[|more| - 1])
  }

  lemma KeysByMembers(s: seq<Row>, t: seq<Row>, k: Key)
    requires multiset(s) == multiset(t)
    ensures HasKey(s, k) <==> HasKey(t, k)
  {
    if HasKey(s, k) {
      var i :| 0 <= i < |s| && KeyOf(s[i]) == k;
      assert s[i] in multiset(t);
      MemberHasKey(t, s[i]);
    }
    if HasKey(t, k) {
      var i :| 0 <= i < |t| && KeyOf(t[i]) == k;
      assert t[i] in multiset(s);
      MemberHasKey(s, t[i]);
    }
  }

  lemma {:induction false} ReplaceNothing(s: seq<Row>, r: Row)
    requires !HasKey(s, KeyOf(r))
    ensures Replace(s, r) == s
  {
    ReplaceAll(s, r);
  }

  lemma ReplaceConcat(s: seq<Row>, x: Row, r: Row)
    ensures Replace(s + [x], r) == Replace(s, r) + [if KeyOf(x) == KeyOf(r) then r else x]
  {
    assert (s + [x])[..|s|] == s;
  }

  lemma Snoc(s: seq<Row>)
    requires s != []
    ensures s == s[..|s| - 1] + [s[|s| - 1]]
  {
  }

  lemma InsertSnoc(s: seq<Row>, x: Row, r: Row)
    ensures x.ts <= r.ts ==> Insert(s + [x], r) == s + [x] + [r]
    ensures x.ts > r.ts ==> Insert(s + [x], r) == Insert(s, r) + [x]
  {
    assert (s + [x])[..|s|] == s;
  }

  /** Replacing a row by one with its key commutes with inserting another. */
  lemma {:induction false} ReplaceInserted(s: seq<Row>, x: Row, r: Row)
    ensures Replace(Insert(s, x), r) == Insert(Replace(s, r), if KeyOf(x) == KeyOf(r) then r else x)
  {
    var y := if KeyOf(x) == KeyOf(r) then r else x;
    ReplaceConcat(s, x, r);
    if s == [] {
      assert s + [x] == [x] && Replace(s, r) + [y] == [y];
    } else {
      var n := |s| - 1;
      var last := if KeyOf(s[n]) == KeyOf(r) then r else s[n];
      ReplaceInserted(s[..n], x, r);
      Snoc(s);
      hide Replace;
      ReplaceConcat(s[..n], s[n], r);
      ReplaceConcat(Insert(s[..n], x), s[n], r);
      InsertSnoc(s[..n], s[n], x);
      InsertSnoc(Replace(s[..n], r), last, y);
    }
  }

  lemma {:induction false} SortReplaced(rows: seq<Row>, r: Row)
    ensures Sort(Replace(rows, r)) == Replace(Sort(rows), r)
  {
    if rows != [] {
      var n := |rows| - 1;
      SortReplaced(rows[..n], r);
      ReplaceInserted(Sort(rows[..n]), rows[n], r);
      assert Replace(rows, r)[..n] == Replace(rows[..n], r);
    }
  }

  lemma SortPut(rows: seq<Row>, r: Row)
    ensures Sort(Put(rows, r)) == SortedPut(Sort(rows), r)
  {
    SortSorts(rows);
    KeysByMembers(rows, Sort(rows), KeyOf(r));
    if HasKey(rows, KeyOf(r)) {
      SortReplaced(rows, r);
    } else {
      assert (rows + [r])[..|rows|] == rows;
    }
  }

  lemma {:induction false} SortPutAll(rows: seq<Row>, more: seq<Row>)
    ensures Sort(PutAll(rows, more)) == SortedPutAll(Sort(rows), more)
  {
    if more != [] {
      SortPutAll(rows, more[..|more| - 1]);
      SortPut(PutAll(rows, more[..|more| - 1]), more[|more| - 1]);
    }
  }

  lemma {:induction false} PutAllConcat(rows: seq<Row>, a: seq<Row>, b: seq<Row>)
    ensures PutAll(rows, a + b) == PutAll(PutAll(rows, a), b)
  {
    if b == [] {
      assert a + b == a;
    } else {
      var n := |b| - 1;
      assert (a + b)[..|a + b| - 1] == a + b[..n];
      PutAllConcat(rows, a, b[..n]);
    }
  }

  lemma {:induction false} DedupeDistinct(rows: seq<Row>)
    requires DistinctKeys(rows)
    ensures Dedupe(rows) == rows
  {
    hide KeyOf, Put;
    if rows != [] {
      var n := |rows| - 1;
      DedupeDistinct(rows[..n]);
      PutNew(rows, n);
    }
  }

  lemma PutNew(rows: seq<Row>, n: nat)
    requires DistinctKeys(rows) && |rows| == n + 1
    ensures Put(rows[..n], rows[n]) == rows
  {
    assert !HasKey(rows[..n], KeyOf(rows[n]));
    hide HasKey, Replace;
    assert rows == rows[..n] + [rows[n]];
  }

  /** Merging cached rows over stored ones is putting them one by one into the sorted stored ones. */
  lemma MergeIsPutting(stored: seq<Row>, cached: seq<Row>)
    ensures Sort(Dedupe(stored + cached)) == SortedPutAll(Sort(Dedupe(stored)), cached)
  {
    PutAllConcat([], stored, cached);
    SortPutAll(Dedupe(stored), cached);
  }

  // ---------------------------------------------------------------------------
  // The newest rows of a sorted list
  // ---------------------------------------------------------------------------

  lemma LastOfSnoc(s: seq<Row>, x: Row, n: int)
    requires n > 0
    ensures LastRows(s + [x], n) == (if n == 1 then [] else LastRows(s, n - 1)) + [x]
  {
  }

  /** Inserting into a list shows in its newest rows as inserting into them. */
  lemma {:induction false} LastOfInsert(s: seq<Row>, r: Row, n: int)
    requires n > 0
    ensures LastRows(Insert(s, r), n) == LastRows(Insert(LastRows(s, n), r), n)
  {
    if s == [] {
      assert LastRows(s, n) == [];
    } else {
      var t, x := s[..|s| - 1], s[|s| - 1];
      var fewer := if n == 1 then [] else LastRows(t, n - 1);
      Snoc(s);
      hide LastRows, Insert;
      LastOfSnoc(t, x, n);
      InsertSnoc(t, x, r);
      InsertSnoc(fewer, x, r);
      if x.ts <= r.ts {
        LastOfSnoc(t + [x], r, n);
        LastOfSnoc(fewer + [x], r, n);
        CutTwice(t + [x], n);
      } else {
        LastOfSnoc(Insert(t, r), x, n);
        LastOfSnoc(Insert(fewer, r), x, n);
        if n > 1 {
          LastOfInsert(t, r, n - 1);
        }
      }
    }
  }

  lemma CutTwice(s: seq<Row>, n: int)
    requires n > 0
    ensures n > 1 ==> LastRows(LastRows(s, n), n - 1) == LastRows(s, n - 1)
  {
  }

  /** A row older than all of `n` newest rows does not get among them. */
  lemma {:induction false} InsertOld(s: seq<Row>, r: Row)
    requires forall i | 0 <= i < |s| :: r.ts < s[i].ts
    ensures Insert(s, r) == [r] + s
  {
    if s != [] {
      InsertOld(s[..|s| - 1], r);
      Snoc(s);
    }
  }

  lemma LastOfReplace(s: seq<Row>, r: Row, n: int)
    requires n > 0
    ensures LastRows(Replace(s, r), n) == Replace(LastRows(s, n), r)
  {
    ReplaceAll(s, r);
    ReplaceAll(LastRows(s, n), r);
  }

  // ---------------------------------------------------------------------------
  // Two merges side by side
  // ---------------------------------------------------------------------------

  predicate NewerThan(s: seq<Row>, ts: int) {
    forall i | 0 <= i < |s| :: ts < s[i].ts
  }

  /** The full merge `full` and the pushed-down merge `pushed` agree on the newest `n` rows; what `pushed` lacks is old. */
  ghost predicate InStep(full: seq<Row>, pushed: seq<Row>, n: int) {
    && n > 0
    && LastRows(full, n) == LastRows(pushed, n)
    && (forall k | HasKey(pushed, k) :: HasKey(full, k))
  }

  /** The rows the store dropped: a cached row with such a key must be older than all kept rows. */
  predicate StaysOut(full: seq<Row>, pushed: seq<Row>, r: Row, n: int) {
    HasKey(full, KeyOf(r)) && !HasKey(pushed, KeyOf(r)) ==> |pushed| >= n && n > 0 && NewerThan(LastRows(pushed, n), r.ts)
  }

  lemma PutKeys(s: seq<Row>, r: Row, k: Key)
    requires Sorted(s)
    ensures HasKey(SortedPut(s, r), k) <==> HasKey(s, k) || k == KeyOf(r)
    ensures Sorted(SortedPut(s, r))
  {
    ReplaceAll(s, r);
    if HasKey(s, KeyOf(r)) {
      var t := Replace(s, r);
      forall i, j | 0 <= i <= j < |t|
        ensures t[i].ts <= t[j].ts
      {
        ReplaceAt(s, r, i);
        ReplaceAt(s, r, j);
      }
      SameKeys(s, t, k);
    } else {
      InsertSorts(s, r);
      KeysByMembers(Insert(s, r), s + [r], k);
      KeysOfSnoc(s, r, k);
    }
  }

  lemma SameKeys(s: seq<Row>, t: seq<Row>, k: Key)
    requires |s| == |t| && forall i | 0 <= i < |s| :: KeyOf(s[i]) == KeyOf(t[i])
    ensures HasKey(s, k) <==> HasKey(t, k)
  {
    if HasKey(s, k) {
      var i :| 0 <= i < |s| && KeyOf(s[i]) == k;
      assert KeyOf(t[i]) == k;
    }
  }

  lemma KeysOfSnoc(s: seq<Row>, r: Row, k: Key)
    ensures HasKey(s + [r], k) <==> HasKey(s, k) || k == KeyOf(r)
  {
    var t := s + [r];
    assert t[|s|] == r;
    if HasKey(s, k) {
      var i :| 0 <= i < |s| && KeyOf(s[i]) == k;
      assert KeyOf(t[i]) == k;
    }
    if HasKey(t, k) && k != KeyOf(r) {
      var i :| 0 <= i < |t| && KeyOf(t[i]) == k;
      assert KeyOf(s[i]) == k;
    }
  }

  lemma StepTogether(full: seq<Row>, pushed: seq<Row>, r: Row, n: int)
    requires InStep(full, pushed, n) && Sorted(full) && Sorted(pushed) && StaysOut(full, pushed, r, n)
    ensures InStep(SortedPut(full, r), SortedPut(pushed, r), n)
  {
    forall k | HasKey(SortedPut(pushed, r), k)
      ensures HasKey(SortedPut(full, r), k)
    {
      PutKeys(pushed, r, k);
      PutKeys(full, r, k);
    }
    hide Insert, Replace, LastRows;
    if HasKey(pushed, KeyOf(r)) {
      LastOfReplace(full, r, n);
      LastOfReplace(pushed, r, n);
    } else if HasKey(full, KeyOf(r)) {
      LastOfReplace(full, r, n);
      NewestAreAmong(pushed, KeyOf(r), n);
      ReplaceNothing(LastRows(pushed, n), r);
      LastOfInsert(pushed, r, n);
      InsertOld(LastRows(pushed, n), r);
      FullCut(pushed, r, n);
    } else {
      LastOfInsert(full, r, n);
      LastOfInsert(pushed, r, n);
    }
  }

  lemma NewestAreAmong(s: seq<Row>, k: Key, n: int)
    requires n > 0
    ensures HasKey(LastRows(s, n), k) ==> HasKey(s, k)
  {
    if HasKey(LastRows(s, n), k) {
      var i :| 0 <= i < |LastRows(s, n)| && KeyOf(LastRows(s, n)[i]) == k;
      MemberHasKey(s, LastRows(s, n)[i]);
    }
  }

  lemma FullCut(s: seq<Row>, r: Row, n: int)
    requires n > 0 && |s| >= n
    ensures LastRows([r] + LastRows(s, n), n) == LastRows(s, n)
  {
  }

  lemma {:induction false} TailOfInsert(s: seq<Row>, r: Row, ts: int)
    requires s != [] && NewerThan(s, ts)
    ensures NewerThan(Insert(s, r)[1..], ts)
  {
    if s[|s| - 1].ts > r.ts && |s| > 1 {
      TailOfInsert(s[..|s| - 1], r, ts);
      assert Insert(s, r)[1..] == Insert(s[..|s| - 1], r)[1..] + [s[|s| - 1]];
    }
  }

  /** The newest rows only get newer. */
  lemma NewestStayNew(s: seq<Row>, r: Row, n: int, ts: int)
    requires n > 0 && |s| >= n && NewerThan(LastRows(s, n), ts)
    ensures |SortedPut(s, r)| >= n && NewerThan(LastRows(SortedPut(s, r), n), ts)
  {
    if HasKey(s, KeyOf(r)) {
      LastOfReplace(s, r, n);
      var newest := LastRows(s, n);
      forall i | 0 <= i < |newest|
        ensures ts < Replace(newest, r)[i].ts
      {
        ReplaceAt(newest, r, i);
      }
    } else {
      LastOfInsert(s, r, n);
      TailOfInsert(LastRows(s, n), r, ts);
    }
  }

  // ---------------------------------------------------------------------------
  // When pushing the limit down is exact
  // ---------------------------------------------------------------------------

  /** A cached row over a row the limit dropped is older than all the rows it kept. */
  predicate DroppedAreOld(all: seq<Row>, cached: seq<Row>, n: int)
    requires n > 0
  {
    forall j | 0 <= j < |cached| :: StaysOut(all, LastRows(all, n), cached[j], n)
  }

  /** What the two merges still have in common after some cached rows. */
  ghost predicate Merging(all: seq<Row>, full: seq<Row>, pushed: seq<Row>, n: int) {
    && InStep(full, pushed, n)
    && Sorted(full) && Sorted(pushed)
    && (forall k | HasKey(full, k) && !HasKey(pushed, k) :: HasKey(all, k) && !HasKey(LastRows(all, n), k))
    && (|all| >= n ==> |pushed| >= n)
    && (forall ts | |all| >= n && NewerThan(LastRows(all, n), ts) :: NewerThan(LastRows(pushed, n), ts))
  }

  lemma MergingStart(all: seq<Row>, n: int)
    requires n > 0 && Sorted(all)
    ensures Merging(all, all, LastRows(all, n), n)
  {
    forall k
      ensures HasKey(LastRows(all, n), k) ==> HasKey(all, k)
    {
      NewestAreAmong(all, k, n);
    }
    assert LastRows(LastRows(all, n), n) == LastRows(all, n);
  }

  lemma MergingStep(all: seq<Row>, full: seq<Row>, pushed: seq<Row>, r: Row, n: int)
    requires Merging(all, full, pushed, n) && StaysOut(all, LastRows(all, n), r, n)
    ensures Merging(all, SortedPut(full, r), SortedPut(pushed, r), n)
  {
    hide SortedPut, LastRows, NewerThan, HasKey;
    StaysOutLater(all, full, pushed, r, n);
    hide InStep, Sorted, StaysOut;
    StepTogether(full, pushed, r, n);
    forall k
      ensures HasKey(SortedPut(full, r), k) <==> HasKey(full, k) || k == KeyOf(r)
      ensures HasKey(SortedPut(pushed, r), k) <==> HasKey(pushed, k) || k == KeyOf(r)
    {
      PutKeys(full, r, k);
      PutKeys(pushed, r, k);
    }
    PutKeys(full, r, KeyOf(r));
    PutKeys(pushed, r, KeyOf(r));
    forall ts | |all| >= n && NewerThan(LastRows(all, n), ts)
      ensures NewerThan(LastRows(SortedPut(pushed, r), n), ts)
    {
      NewestStayNew(pushed, r, n, ts);
    }
    if |all| >= n {
      PutIsNoShorter(pushed, r);
    }
  }

  lemma StaysOutLater(all: seq<Row>, full: seq<Row>, pushed: seq<Row>, r: Row, n: int)
    requires Merging(all, full, pushed, n) && StaysOut(all, LastRows(all, n), r, n)
    ensures StaysOut(full, pushed, r, n)
  {
    hide Sorted, NewerThan, HasKey, LastRows;
    if HasKey(full, KeyOf(r)) && !HasKey(pushed, KeyOf(r)) {
      ShortListIsWhole(all, KeyOf(r), n);
      LastOfLast(all, n);
    }
  }

  lemma LastOfLast(s: seq<Row>, n: int)
    requires n > 0
    ensures LastRows(LastRows(s, n), n) == LastRows(s, n)
  {
  }

  lemma PutIsNoShorter(s: seq<Row>, r: Row)
    ensures |SortedPut(s, r)| >= |s|
  {
  }

  lemma ShortListIsWhole(s: seq<Row>, k: Key, n: int)
    requires n > 0 && HasKey(s, k) && !HasKey(LastRows(s, n), k)
    ensures |s| >= n
  {
  }

  lemma {:induction false} MergeTogether(all: seq<Row>, cached: seq<Row>, n: int)
    requires n > 0 && Sorted(all) && DroppedAreOld(all, cached, n)
    ensures Merging(all, SortedPutAll(all, cached), SortedPutAll(LastRows(all, n), cached), n)
  {
    hide Merging, StaysOut, SortedPut, LastRows, Sorted;
    if cached == [] {
      MergingStart(all, n);
    } else {
      var m := |cached| - 1;
      assert DroppedAreOld(all, cached[..m], n) by {
        assert forall j | 0 <= j < m :: cached[..m][j] == cached[j];
      }
      MergeTogether(all, cached[..m], n);
      MergingStep(all, SortedPutAll(all, cached[..m]), SortedPutAll(LastRows(all, n), cached[..m]), cached[m], n);
    }
  }

  /** No row that is both stored and cached shares its time with a stored row of another key. */
  predicate NoSharedTies(stored: seq<Row>, cached: seq<Row>) {
    forall j, x | 0 <= j < |cached| && x in stored ::
      HasKey(stored, KeyOf(cached[j])) && x.ts == cached[j].ts ==> KeyOf(x) == KeyOf(cached[j])
  }

  predicate DistinctTimes(rows: seq<Row>) {
    forall i, j | 0 <= i < j < |rows| :: rows[i].ts != rows[j].ts
  }

  /** Both answers of a limited query, as merges over sorted rows. */
  lemma AnswersAsMerges(stored: seq<Row>, cached: seq<Row>, n: int)
    requires n > 0
    ensures Reference(stored, cached, Some(n)) == LastRows(SortedPutAll(Sort(Dedupe(stored)), cached), n)
    ensures Answer(stored, cached, Some(n)) == LastRows(SortedPutAll(Sort(Dedupe(LastRows(Sort(stored), n))), cached), n)
  {
    MergeIsPutting(stored, cached);
    MergeIsPutting(LastRows(Sort(stored), n), cached);
  }

  lemma {:induction false} DedupeNoLonger(rows: seq<Row>)
    ensures |Dedupe(rows)| <= |rows|
  {
    if rows != [] {
      DedupeNoLonger(rows[..|rows| - 1]);
    }
  }

  /** Without cached rows, the limited query answers with the limited rows, one per key. */
  lemma AnswerAlone(stored: seq<Row>, n: int)
    requires n > 0
    ensures Reference(stored, [], Some(n)) == LastRows(Sort(Dedupe(stored)), n)
    ensures Answer(stored, [], Some(n)) == Sort(Dedupe(LastRows(Sort(stored), n)))
  {
    AnswersAsMerges(stored, [], n);
    DedupeNoLonger(LastRows(Sort(stored), n));
    hide Sort, Dedupe, SortedPut;
    var kept := Sort(Dedupe(LastRows(Sort(stored), n)));
    assert |kept| <= n;
    assert LastRows(kept, n) == kept;
  }

  /** The deduplicated rows are stored rows, one for each stored key. */
  lemma DedupedRows(stored: seq<Row>, k: Key)
    ensures var all := Sort(Dedupe(stored));
            && Sorted(all) && DistinctKeys(all)
            && (HasKey(all, k) <==> HasKey(stored, k))
            && (forall x | x in all :: x in stored)
  {
    var rows := Dedupe(stored);
    DedupeKeepsLast(stored, Row("", "", 0, ""));
    SortSorts(rows);
    SortDistinct(rows);
    PutAllKeeps([], stored, k);
    KeysByMembers(rows, Sort(rows), k);
    forall x | x in Sort(rows)
      ensures x in stored
    {
      assert x in multiset(rows);
      DedupeKeepsLast(stored, x);
      LastWithMember(stored, KeyOf(x));
    }
  }

  lemma {:induction false} LastWithMember(rows: seq<Row>, k: Key)
    ensures LastWith(rows, k).Some? ==> LastWith(rows, k).value in rows && KeyOf(LastWith(rows, k).value) == k
  {
    if rows != [] {
      LastWithMember(rows[..|rows| - 1], k);
    }
  }

  lemma {:induction false} InsertDistinct(s: seq<Row>, r: Row)
    requires DistinctKeys(s) && !HasKey(s, KeyOf(r))
    ensures DistinctKeys(Insert(s, r))
  {
    if s == [] || s[|s| - 1].ts <= r.ts {
      PutKeeps(s, r, KeyOf(r));
    } else {
      var n := |s| - 1;
      Snoc(s);
      KeysOfSnoc(s[..n], s[n], KeyOf(r));
      InsertDistinct(s[..n], r);
      var t := Insert(s[..n], r);
      forall i | 0 <= i < |t|
        ensures KeyOf(t[i]) != KeyOf(s[n])
      {
        MemberHasKey(t, t[i]);
        InsertHasKeys(s[..n], r, KeyOf(t[i]));
      }
    }
  }

  lemma {:induction false} InsertHasKeys(s: seq<Row>, r: Row, k: Key)
    ensures HasKey(Insert(s, r), k) <==> HasKey(s, k) || k == KeyOf(r)
  {
    if s == [] || s[|s| - 1].ts <= r.ts {
      KeysOfSnoc(s, r, k);
    } else {
      var n := |s| - 1;
      Snoc(s);
      InsertHasKeys(s[..n], r, k);
      KeysOfSnoc(Insert(s[..n], r), s[n], k);
      KeysOfSnoc(s[..n], s[n], k);
    }
  }

  lemma {:induction false} SortDistinct(rows: seq<Row>)
    requires DistinctKeys(rows)
    ensures DistinctKeys(Sort(rows))
  {
    if rows != [] {
      var n := |rows| - 1;
      SortDistinct(rows[..n]);
      SortSorts(rows[..n]);
      KeysByMembers(Sort(rows[..n]), rows[..n], KeyOf(rows[n]));
      InsertDistinct(Sort(rows[..n]), rows[n]);
    }
  }

  lemma TiesAreOld(stored: seq<Row>, cached: seq<Row>, n: int)
    requires NoSharedTies(stored, cached) && n > 0
    ensures DroppedAreOld(Sort(Dedupe(stored)), cached, n)
  {
    var all := Sort(Dedupe(stored));
    hide Sort, Dedupe;
    forall j | 0 <= j < |cached|
      ensures StaysOut(all, LastRows(all, n), cached[j], n)
    {
      DedupedRows(stored, KeyOf(cached[j]));
      if HasKey(all, KeyOf(cached[j])) && !HasKey(LastRows(all, n), KeyOf(cached[j])) {
        DroppedIsOld(stored, all, cached, j, n);
      }
    }
  }

  lemma KeptHasKey(s: seq<Row>, n: int, d: nat)
    requires n > 0 && d < |s|
    ensures d >= |s| - n ==> HasKey(LastRows(s, n), KeyOf(s[d]))
  {
    if d >= |s| - n {
      var newest := LastRows(s, n);
      MemberHasKey(newest, newest[d - (|s| - |newest|)]);
    }
  }

  lemma DroppedIsOld(stored: seq<Row>, all: seq<Row>, cached: seq<Row>, j: nat, n: int)
    requires NoSharedTies(stored, cached) && n > 0 && j < |cached|
    requires Sorted(all) && forall x | x in all :: x in stored
    requires HasKey(stored, KeyOf(cached[j]))
    requires HasKey(all, KeyOf(cached[j])) && !HasKey(LastRows(all, n), KeyOf(cached[j]))
    ensures |LastRows(all, n)| >= n && NewerThan(LastRows(LastRows(all, n), n), cached[j].ts)
  {
    var k := KeyOf(cached[j]);
    var d :| 0 <= d < |all| && KeyOf(all[d]) == k;
    ShortListIsWhole(all, k, n);
    var kept := |all| - n;
    assert LastRows(all, n) == all[kept..];
    KeptHasKey(all, n, d);
    forall i | kept <= i < |all|
      ensures cached[j].ts < all[i].ts
    {
      assert all[i] in all;
      assert KeyOf(all[kept..][i - kept]) == KeyOf(all[i]);
    }
    LastOfLast(all, n);
  }

  /**
    Whatever the store holds: where the limited query is right without cached rows, it is right with
    any cached rows, as long as no row both stored and cached ties with a stored row of another key.
   */
  lemma PushdownIsExact(stored: seq<Row>, cached: seq<Row>, limit: Option<int>)
    requires Answer(stored, [], limit) == Reference(stored, [], limit) && NoSharedTies(stored, cached)
    ensures Answer(stored, cached, limit) == Reference(stored, cached, limit)
  {
    hide Sort, Dedupe, LastRows, NoSharedTies, DroppedAreOld, SortedPutAll, Sorted;
    if limit.Some? && limit.value > 0 {
      AnswerAlone(stored, limit.value);
      AnswersAsMerges(stored, cached, limit.value);
      TiesAreOld(stored, cached, limit.value);
      DedupedRows(stored, Key("", "", 0));
      MergeTogether(Sort(Dedupe(stored)), cached, limit.value);
    }
  }

  // ---------------------------------------------------------------------------
  // Exactly when it is exact for every cache and limit
  // ---------------------------------------------------------------------------

  predicate SameKeyUpTo(s: seq<Row>, i: nat)
    requires i < |s|
  {
    forall j | 0 <= j <= i :: KeyOf(s[j]) == KeyOf(s[0])
  }

  /** Row `i` has the time of the row before it, and not all rows so far are versions of one. */
  predicate BadTie(s: seq<Row>, i: int) {
    0 < i < |s| && s[i - 1].ts == s[i].ts && !SameKeyUpTo(s, i)
  }

  /** In time order no two rows share an instant, but for versions of the oldest row. */
  ghost predicate TiesOnlyAtStart(s: seq<Row>) {
    forall i :: !BadTie(s, i)
  }

  /** Each row from place `i` on is newer than the one before it. */
  predicate RisingFrom(s: seq<Row>, i: nat) {
    forall j | i < j < |s| :: s[j - 1].ts < s[j].ts
  }

  lemma {:induction false} RisingAll(s: seq<Row>, i: nat, j: nat, k: nat)
    requires RisingFrom(s, i) && i <= j < k < |s|
    ensures s[j].ts < s[k].ts
  {
    if j < k - 1 {
      RisingAll(s, i, j, k - 1);
    }
  }

  lemma RisingIsDistinct(s: seq<Row>, i: nat)
    requires RisingFrom(s, i) && i <= |s|
    ensures DistinctTimes(s[i..]) && DistinctKeys(s[i..]) && Sorted(s[i..])
  {
    var t := s[i..];
    forall j, k | 0 <= j < k < |t|
      ensures t[j].ts < t[k].ts
    {
      RisingAll(s, i, i + j, i + k);
    }
  }

  /** How many rows at the start are versions of one. */
  function Versions(s: seq<Row>): (r: nat)
    requires s != []
    ensures 1 <= r <= |s| && SameKeyUpTo(s, r - 1) && (r < |s| ==> KeyOf(s[r]) != KeyOf(s[0]))
  {
    VersionsFrom(s, 1)
  }

  function VersionsFrom(s: seq<Row>, k: nat): (r: nat)
    requires 1 <= k <= |s| && SameKeyUpTo(s, k - 1)
    ensures k <= r <= |s| && SameKeyUpTo(s, r - 1) && (r < |s| ==> KeyOf(s[r]) != KeyOf(s[0]))
    decreases |s| - k
  {
    if k < |s| && KeyOf(s[k]) == KeyOf(s[0]) then VersionsFrom(s, k + 1) else k
  }

  /** From the last version of the oldest row on, times rise. */
  lemma StartThenRising(s: seq<Row>)
    requires s != [] && Sorted(s) && TiesOnlyAtStart(s)
    ensures RisingFrom(s, Versions(s) - 1)
  {
    var r := Versions(s);
    forall j | r - 1 < j < |s|
      ensures s[j - 1].ts < s[j].ts
    {
      assert !BadTie(s, j);
      assert KeyOf(s[r]) != KeyOf(s[0]);
    }
  }

  /** Versions of one row, then rows of other keys: the last version stays, and the rest. */
  lemma {:induction false} DedupeVersions(s: seq<Row>, r: nat)
    requires 1 <= r <= |s| && SameKeyUpTo(s, r - 1) && DistinctKeys(s[r - 1..])
    ensures Dedupe(s) == s[r - 1..]
  {
    hide KeyOf, Put;
    var n := |s| - 1;
    var before := s[..n];
    if r == |s| {
      if r > 1 {
        assert SameKeyUpTo(before, r - 2);
        assert before[r - 2..] == [before[r - 2]];
        DedupeVersions(before, r - 1);
        PutOver(s[r - 2], s[r - 1]);
        assert KeyOf(s[r - 2]) == KeyOf(s[0]) == KeyOf(s[r - 1]);
      } else {
        PutNew(s, 0);
        assert before == [] && Dedupe(before) == [];
      }
      assert s[r - 1..] == [s[r - 1]];
    } else {
      var rest, shorter := s[r - 1..], before[r - 1..];
      assert SameKeyUpTo(before, r - 1) && shorter == rest[..|s| - r];
      DedupeVersions(before, r);
      PutNew(rest, |s| - r);
    }
  }

  lemma PutOver(x: Row, y: Row)
    ensures KeyOf(x) == KeyOf(y) ==> Put([x], y) == [y]
  {
    assert [x][..0] == [] && KeyOf([x][0]) == KeyOf(x);
    ReplaceConcat([], x, y);
    assert [] + [x] == [x] && Replace([], y) + [y] == [y];
  }

  lemma LastWithConcat(rows: seq<Row>, r: Row, k: Key)
    ensures LastWith(rows + [r], k) == if KeyOf(r) == k then Some(r) else LastWith(rows, k)
  {
    assert (rows + [r])[..|rows|] == rows;
  }

  /** Which row is the last with its key depends on the rows of its instant only. */
  lemma {:induction false} LastOfInstant(rows: seq<Row>, k: Key)
    ensures LastWith(rows, k) == LastWith(AtTime(rows, k.ts), k)
  {
    if rows != [] {
      var n := |rows| - 1;
      LastOfInstant(rows[..n], k);
      LastWithConcat(AtTime(rows[..n], k.ts), rows[n], k);
      assert AtTime(rows[..n], k.ts) + [] == AtTime(rows[..n], k.ts);
    }
  }

  lemma PrefixMembers(a: seq<Row>, b: seq<Row>, x: Row)
    requires a != [] && b != [] && a[|a| - 1] == b[|b| - 1] && DistinctTimes(a) && DistinctTimes(b)
    requires x in a <==> x in b
    ensures x in a[..|a| - 1] <==> x in b[..|b| - 1]
  {
    Snoc(a);
    Snoc(b);
    NotBefore(a);
    NotBefore(b);
  }

  lemma NotBefore(a: seq<Row>)
    requires a != [] && DistinctTimes(a)
    ensures a[|a| - 1] !in a[..|a| - 1]
  {
    var before := a[..|a| - 1];
    forall i | 0 <= i < |before|
      ensures before[i] != a[|a| - 1]
    {
      assert a[i].ts != a[|a| - 1].ts;
    }
  }

  lemma NewestIs(a: seq<Row>, b: seq<Row>)
    requires Sorted(a) && Sorted(b) && DistinctTimes(b) && a != [] && b != []
    requires a[|a| - 1] in b && b[|b| - 1] in a
    ensures a[|a| - 1] == b[|b| - 1]
  {
    var i :| 0 <= i < |b| && b[i] == a[|a| - 1];
    var j :| 0 <= j < |a| && a[j] == b[|b| - 1];
    assert a[j].ts <= a[|a| - 1].ts && b[i].ts <= b[|b| - 1].ts;
  }

  lemma Inhabited(s: seq<Row>)
    ensures s == [] || exists x :: x in s
  {
    if s != [] {
      assert s[0] in s;
    }
  }

  /** Rows of different times have one order in time. */
  lemma {:induction false} OneOrder(a: seq<Row>, b: seq<Row>)
    requires Sorted(a) && Sorted(b) && DistinctTimes(a) && DistinctTimes(b)
    requires forall x :: x in a <==> x in b
    ensures a == b
    decreases |a|
  {
    Inhabited(a);
    Inhabited(b);
    if a != [] {
      assert a[|a| - 1] in b;
      assert b[|b| - 1] in a;
      NewestIs(a, b);
      var fewerA, fewerB := a[..|a| - 1], b[..|b| - 1];
      forall x
        ensures x in fewerA <==> x in fewerB
      {
        PrefixMembers(a, b, x);
      }
      OneOrder(fewerA, fewerB);
      Snoc(a);
      Snoc(b);
    }
  }

  /** Deduplicating and sorting can be swapped when no two of the remaining rows share an instant. */
  lemma SortThenDedupe(stored: seq<Row>)
    requires Sorted(Dedupe(Sort(stored))) && DistinctTimes(Dedupe(Sort(stored)))
    ensures Sort(Dedupe(stored)) == Dedupe(Sort(stored))
  {
    var a, b := Sort(Dedupe(stored)), Dedupe(Sort(stored));
    DedupedRows(stored, Key("", "", 0));
    SortSorts(Dedupe(stored));
    forall x
      ensures x in a <==> x in b
    {
      assert x in a <==> x in multiset(Dedupe(stored));
      DedupeKeepsLast(stored, x);
      DedupeKeepsLast(Sort(stored), x);
      LastOfInstant(stored, KeyOf(x));
      LastOfInstant(Sort(stored), KeyOf(x));
      SortIsStable(stored, KeyOf(x).ts);
    }
    SameTimes(a, b);
    OneOrder(a, b);
  }

  lemma SameTimes(a: seq<Row>, b: seq<Row>)
    requires DistinctKeys(a) && DistinctTimes(b) && forall x :: x in a <==> x in b
    ensures DistinctTimes(a)
  {
    forall i, j | 0 <= i < j < |a|
      ensures a[i].ts != a[j].ts
    {
      assert a[i] in a && a[j] in a;
      var k :| 0 <= k < |b| && b[k] == a[i];
      var l :| 0 <= l < |b| && b[l] == a[j];
      assert KeyOf(a[i]) != KeyOf(a[j]);
    }
  }

  /** With ties only among the versions of the oldest row, limiting before deduplicating drops nothing. */
  lemma LimitFirst(s: seq<Row>, n: int)
    requires s != [] && Sorted(s) && TiesOnlyAtStart(s) && n > 0
    ensures Sorted(Dedupe(s)) && DistinctTimes(Dedupe(s))
    ensures Sort(Dedupe(LastRows(s, n))) == LastRows(Dedupe(s), n)
  {
    hide *;
    var r := Versions(s);
    StartThenRising(s);
    RisingIsDistinct(s, r - 1);
    DedupeVersions(s, r);
    if n >= |s| - r + 1 {
      FewVersions(s, r, n);
    } else {
      NewestOnly(s, r, n);
    }
  }

  lemma FewVersions(s: seq<Row>, r: nat, n: int)
    requires 1 <= r <= |s| && SameKeyUpTo(s, r - 1) && DistinctKeys(s[r - 1..]) && Sorted(s[r - 1..]) && n >= |s| - r + 1
    ensures Sort(Dedupe(LastRows(s, n))) == LastRows(s[r - 1..], n)
  {
    hide Sort, Dedupe;
    var d := if n >= |s| then 0 else |s| - n;
    var kept := s[d..];
    assert LastRows(s, n) == kept && LastRows(s[r - 1..], n) == s[r - 1..];
    assert SameKeyUpTo(kept, r - 1 - d) && kept[r - 1 - d..] == s[r - 1..];
    hide LastRows, SameKeyUpTo, Sorted, DistinctKeys;
    DedupeVersions(kept, r - d);
    SortOfSorted(s[r - 1..]);
  }

  lemma NewestOnly(s: seq<Row>, r: nat, n: int)
    requires 1 <= r <= |s| && RisingFrom(s, r - 1) && 0 < n < |s| - r + 1
    ensures Sort(Dedupe(LastRows(s, n))) == LastRows(s[r - 1..], n)
  {
    hide Sort, Dedupe;
    var d := |s| - n;
    assert LastRows(s, n) == s[d..] && LastRows(s[r - 1..], n) == s[d..];
    RisingLater(s, r - 1, d);
    hide LastRows, RisingFrom;
    RisingIsDistinct(s, d);
    DedupeDistinct(s[d..]);
    SortOfSorted(s[d..]);
  }

  lemma ExactAlone(stored: seq<Row>, n: int)
    requires TiesOnlyAtStart(Sort(stored)) && n > 0
    ensures Answer(stored, [], Some(n)) == Reference(stored, [], Some(n))
  {
    SortSorts(stored);
    AnswerAlone(stored, n);
    hide Dedupe, TiesOnlyAtStart, Answer, Reference, Sorted, LastRows;
    if stored != [] {
      hide Sort;
      LimitFirst(Sort(stored), n);
      SortThenDedupe(stored);
    } else {
      NoRows(n);
    }
  }

  lemma NoRows(n: int)
    requires n > 0
    ensures LastRows(Sort(Dedupe([])), n) == Sort(Dedupe(LastRows(Sort([]), n)))
  {
  }

  lemma RisingLater(s: seq<Row>, i: nat, j: nat)
    requires RisingFrom(s, i) && i <= j
    ensures RisingFrom(s, j)
  {
  }

  lemma NoTiesShared(stored: seq<Row>, cached: seq<Row>)
    requires TiesOnlyAtStart(Sort(stored))
    ensures NoSharedTies(stored, cached)
  {
    var s := Sort(stored);
    SortSorts(stored);
    forall j, x | 0 <= j < |cached| && x in stored && HasKey(stored, KeyOf(cached[j])) && x.ts == cached[j].ts
      ensures KeyOf(x) == KeyOf(cached[j])
    {
      KeysByMembers(stored, s, KeyOf(cached[j]));
      assert x in multiset(s);
      var a :| 0 <= a < |s| && s[a] == x;
      var b :| 0 <= b < |s| && KeyOf(s[b]) == KeyOf(cached[j]);
      hide Sort;
      if a != b {
        OneInstant(s, if a < b then a else b, if a < b then b else a);
      }
    }
  }

  lemma OneInstant(s: seq<Row>, a: nat, b: nat)
    requires Sorted(s) && TiesOnlyAtStart(s) && a < b < |s| && s[a].ts == s[b].ts
    ensures KeyOf(s[a]) == KeyOf(s[b])
  {
    assert s[a].ts <= s[b - 1].ts <= s[b].ts;
    assert !BadTie(s, b);
  }

  /** The newest bad tie: after it times rise. */
  lemma {:induction false} NewestBadTie(s: seq<Row>, k: nat) returns (i: nat)
    requires k < |s| && (exists j :: j <= k && BadTie(s, j)) && RisingFrom(s, k) && Sorted(s)
    ensures BadTie(s, i) && RisingFrom(s, i)
    decreases k
  {
    if BadTie(s, k) {
      i := k;
    } else {
      var j :| j <= k && BadTie(s, j);
      assert j < k && !SameKeyUpTo(s, k) by {
        var m :| 0 <= m <= j && KeyOf(s[m]) != KeyOf(s[0]);
      }
      assert s[k - 1].ts < s[k].ts;
      RisingEarlier(s, k);
      i := NewestBadTie(s, k - 1);
    }
  }

  lemma RisingEarlier(s: seq<Row>, k: nat)
    requires 0 < k < |s| && RisingFrom(s, k) && s[k - 1].ts < s[k].ts
    ensures RisingFrom(s, k - 1)
  {
  }

  /** A row whose key is none of those from place `i` on. */
  lemma KeyOutside(s: seq<Row>, i: nat) returns (z: Row)
    requires Sorted(s) && BadTie(s, i) && RisingFrom(s, i)
    ensures z in s && !HasKey(s[i..], KeyOf(z))
  {
    var m :| 0 <= m <= i && KeyOf(s[m]) != KeyOf(s[0]);
    var l := if KeyOf(s[0]) != KeyOf(s[i]) then 0 else m;
    z := s[l];
    forall j | 0 <= j < |s[i..]|
      ensures KeyOf(s[i..][j]) != KeyOf(z)
    {
      assert s[l].ts <= s[i].ts;
      if j > 0 {
        RisingAll(s, i, i, i + j);
      }
    }
  }

  lemma LastRowsOf(s: seq<Row>, i: nat)
    requires i < |s|
    ensures LastRows(s, |s| - i) == s[i..]
  {
  }

  lemma OneOfTwo(s: seq<Row>, i: nat)
    requires Sorted(s) && BadTie(s, i) && RisingFrom(s, i) && KeyOf(s[i - 1]) == KeyOf(s[i])
    ensures Sort(Dedupe(s[i - 1..])) == s[i..]
  {
    var kept, rest := s[i - 1..], s[i..];
    hide Sort, Dedupe;
    RisingIsDistinct(s, i);
    assert kept[1..] == rest && SameKeyUpTo(kept, 1);
    DedupeVersions(kept, 2);
    SortOfSorted(rest);
  }

  /** A tie between two versions of a row that is not the oldest: the limit spends two places on one row. */
  lemma VersionsBreakPushdown(stored: seq<Row>, i: nat)
    requires var s := Sort(stored);
             BadTie(s, i) && RisingFrom(s, i) && KeyOf(s[i - 1]) == KeyOf(s[i])
    ensures var n := |stored| - i + 1;
            Answer(stored, [], Some(n)) != Reference(stored, [], Some(n))
  {
    hide *;
    var s, n, all := Sort(stored), |stored| - i + 1, Sort(Dedupe(stored));
    TieIsInside(s, i);
    AnswerAlone(stored, n);
    LastRowsOf(s, i - 1);
    SortedMembers(stored, s[i]);
    OneOfTwo(s, i);
    var z := KeyOutside(s, i);
    SortedMembers(stored, z);
    DedupedHasKey(stored, z);
    if LastRows(all, n) == s[i..] {
      ShortMeansWhole(all, n, s[i..]);
    }
  }

  lemma TieIsInside(s: seq<Row>, i: int)
    requires BadTie(s, i)
    ensures 0 < i < |s| && s[i - 1].ts == s[i].ts
  {
  }

  lemma SortedMembers(stored: seq<Row>, x: Row)
    ensures Sorted(Sort(stored)) && (x in Sort(stored) ==> x in stored)
  {
    SortSorts(stored);
    assert x in Sort(stored) <==> x in multiset(Sort(stored));
  }

  lemma DedupedHasKey(stored: seq<Row>, x: Row)
    requires x in stored
    ensures HasKey(Sort(Dedupe(stored)), KeyOf(x))
  {
    MemberHasKey(stored, x);
    DedupedRows(stored, KeyOf(x));
  }

  lemma ShortMeansWhole(all: seq<Row>, n: int, rest: seq<Row>)
    requires n > |rest| && LastRows(all, n) == rest
    ensures all == rest
  {
  }

  lemma {:induction false} InsertAfterFirst(s: seq<Row>, r: Row)
    requires s != [] && s[0].ts <= r.ts
    ensures Insert(s, r)[0] == s[0]
    ensures r in Insert(s, r)[1..]
  {
    var n := |s| - 1;
    if s[n].ts <= r.ts {
      assert Insert(s, r)[1..][n] == r;
    } else {
      InsertAfterFirst(s[..n], r);
      assert Insert(s, r)[1..] == Insert(s[..n], r)[1..] + [s[n]];
    }
  }

  lemma OnePut(s: seq<Row>, x: Row)
    ensures SortedPutAll(s, [x]) == SortedPut(s, x)
  {
    assert [x][..0] == [];
  }

  /** A tie between different rows: caching the one the limit drops brings it back. */
  lemma TieBreaksPushdown(stored: seq<Row>, s: seq<Row>, i: nat, x: Row, n: int)
    requires s == Sort(stored) && BadTie(s, i) && RisingFrom(s, i) && KeyOf(s[i - 1]) != KeyOf(s[i])
    requires x == s[i - 1] && n == |s| - i
    ensures Answer(stored, [], Some(n)) != Reference(stored, [], Some(n))
            || Answer(stored, [x], Some(n)) != Reference(stored, [x], Some(n))
  {
    hide *;
    var all, kept := Sort(Dedupe(stored)), LastRows(s, n);
    TieIsInside(s, i);
    SortedMembers(stored, x);
    DedupedHasKey(stored, x);
    RestAlone(s, i);
    AnswerAlone(stored, n);
    AnswersAsMerges(stored, [x], n);
    if LastRows(all, n) == kept {
      ComesBack(all, kept, x, n);
    }
  }

  /** The rows from the tie on are what the limit keeps, and deduplicating leaves them alone. */
  lemma RestAlone(s: seq<Row>, i: nat)
    requires Sorted(s) && BadTie(s, i) && RisingFrom(s, i) && KeyOf(s[i - 1]) != KeyOf(s[i])
    ensures var x, rest := s[i - 1], LastRows(s, |s| - i);
            && Sort(Dedupe(rest)) == rest
            && |rest| == |s| - i > 0 && rest[0].ts <= x.ts
            && !HasKey(rest, KeyOf(x)) && x !in rest
  {
    hide Sort, Dedupe, BadTie, RisingFrom, HasKey, DistinctKeys;
    TieIsInside(s, i);
    LastRowsOf(s, i);
    RisingIsDistinct(s, i);
    DedupeDistinct(s[i..]);
    SortOfSorted(s[i..]);
    NotInRest(s, i);
  }

  /** Putting `x` over its stored version leaves the newest rows alone, and puts it among them when it was dropped. */
  lemma ComesBack(all: seq<Row>, rest: seq<Row>, x: Row, n: int)
    requires n == |rest| > 0 && LastRows(all, n) == rest && HasKey(all, KeyOf(x))
    requires !HasKey(rest, KeyOf(x)) && x !in rest && rest[0].ts <= x.ts
    ensures LastRows(SortedPutAll(rest, [x]), n) != LastRows(SortedPutAll(all, [x]), n)
  {
    hide Insert, Replace, SortedPutAll, HasKey;
    OnePut(all, x);
    OnePut(rest, x);
    LastOfReplace(all, x, n);
    ReplaceNothing(rest, x);
    InsertAfterFirst(rest, x);
    assert LastRows(Insert(rest, x), n) == Insert(rest, x)[1..];
  }

  lemma NotInRest(s: seq<Row>, i: nat)
    requires Sorted(s) && BadTie(s, i) && RisingFrom(s, i) && KeyOf(s[i - 1]) != KeyOf(s[i])
    ensures !HasKey(s[i..], KeyOf(s[i - 1])) && s[i - 1] !in s[i..]
  {
    forall j | 0 <= j < |s[i..]|
      ensures KeyOf(s[i..][j]) != KeyOf(s[i - 1])
    {
      if j > 0 {
        RisingAll(s, i, i, i + j);
      }
    }
  }

  lemma TieBreaks(stored: seq<Row>)
    requires !TiesOnlyAtStart(Sort(stored))
    ensures exists cached, limit :: Answer(stored, cached, limit) != Reference(stored, cached, limit)
  {
    var s := Sort(stored);
    SortSorts(stored);
    var j :| BadTie(s, j);
    hide Sort, Answer, Reference;
    assert RisingFrom(s, |s| - 1);
    var i := NewestBadTie(s, |s| - 1);
    if KeyOf(s[i - 1]) == KeyOf(s[i]) {
      VersionsBreakPushdown(stored, i);
    } else {
      TieBreaksPushdown(stored, s, i, s[i - 1], |s| - i);
    }
  }

  /**
    Whatever the store holds: pushing the limit down is exact for every cache and every limit exactly
    when, in time order, no two rows share an instant but versions of the oldest row.
   */
  lemma ExactForEveryCache(stored: seq<Row>)
    ensures TiesOnlyAtStart(Sort(stored))
            <==> forall cached, limit :: Answer(stored, cached, limit) == Reference(stored, cached, limit)
  {
    if TiesOnlyAtStart(Sort(stored)) {
      forall cached, limit
        ensures Answer(stored, cached, limit) == Reference(stored, cached, limit)
      {
        if limit.Some? && limit.value > 0 {
          ExactAlone(stored, limit.value);
          NoTiesShared(stored, cached);
          hide Answer, Reference;
          PushdownIsExact(stored, cached, limit);
        }
      }
    } else {
      TieBreaks(stored);
    }
  }

  /** With one stored row per key the condition is that no two stored rows share an instant. */
  lemma OneRowPerKey(stored: seq<Row>)
    requires DistinctKeys(stored)
    ensures TiesOnlyAtStart(Sort(stored)) <==> DistinctTimes(Sort(stored))
  {
    var s := Sort(stored);
    SortSorts(stored);
    SortDistinct(stored);
    hide Sort;
    if TiesOnlyAtStart(s) {
      forall i, j | 0 <= i < j < |s|
        ensures s[i].ts != s[j].ts
      {
        if s[i].ts == s[j].ts {
          OneInstant(s, i, j);
          assert false;
        }
      }
    } else {
      var i :| BadTie(s, i);
    }
  }

  // ---------------------------------------------------------------------------
  // Which rows are answered at all
  // ---------------------------------------------------------------------------

  /** The rows of the asked symbol within the closed range, each as often as it is stored, and no others. */
  lemma {:induction false} MatchingCounts(rows: seq<Row>, symbol: string, frm: int, to: int, r: Row)
    ensures multiset(Matching(rows, symbol, frm, to))[r]
            == if r.symbol == symbol && frm <= r.ts && r.ts <= to then multiset(rows)[r] else 0
  {
    if rows != [] {
      var n := |rows| - 1;
      MatchingCounts(rows[..n], symbol, frm, to, r);
      assert rows == rows[..n] + [rows[n]];
    }
  }

  /** In the store's order: what was stored later is answered later. */
  lemma {:induction false} MatchingConcat(a: seq<Row>, b: seq<Row>, symbol: string, frm: int, to: int)
    ensures Matching(a + b, symbol, frm, to) == Matching(a, symbol, frm, to) + Matching(b, symbol, frm, to)
  {
    if b == [] {
      assert a + b == a;
    } else {
      var n := |b| - 1;
      assert (a + b)[..|a + b| - 1] == a + b[..n];
      MatchingConcat(a, b[..n], symbol, frm, to);
    }
  }

  /** Versions of one row match together or not at all. */
  lemma {:induction false} LastMatching(rows: seq<Row>, symbol: string, frm: int, to: int, k: Key)
    ensures LastWith(Matching(rows, symbol, frm, to), k)
            == if k.symbol == symbol && frm <= k.ts && k.ts <= to then LastWith(rows, k) else None
  {
    if rows != [] {
      var n := |rows| - 1;
      LastMatching(rows[..n], symbol, frm, to, k);
      LastWithConcat(Matching(rows[..n], symbol, frm, to), rows[n], k);
      assert Matching(rows[..n], symbol, frm, to) + [] == Matching(rows[..n], symbol, frm, to);
    }
  }

  /** `x` is what a query for the symbol and range should show of its row: the last version, cached rows counting as later. */
  predicate Current(ticks: seq<Row>, cached: seq<Row>, symbol: string, frm: int, to: int, x: Row) {
    x.symbol == symbol && frm <= x.ts <= to && IsLatest(ticks + cached, x)
  }

  /** The row is there, and none after it is of the same event, symbol and time. */
  predicate IsLatest(rows: seq<Row>, x: Row) {
    exists i | 0 <= i < |rows| ::
      rows[i] == x
      && forall j | i < j < |rows| :: !(rows[j].eventId == x.eventId && rows[j].symbol == x.symbol && rows[j].ts == x.ts)
  }

  lemma {:induction false} LatestIsLastWith(rows: seq<Row>, x: Row)
    ensures IsLatest(rows, x) <==> LastWith(rows, KeyOf(x)) == Some(x)
  {
    if rows != [] {
      var n := |rows| - 1;
      LatestIsLastWith(rows[..n], x);
      if rows[n] == x {
        assert IsLatest(rows, x);
      } else if KeyOf(rows[n]) != KeyOf(x) {
        LatestBefore(rows, n, x);
      }
    }
  }

  lemma LatestBefore(rows: seq<Row>, n: nat, x: Row)
    requires |rows| == n + 1 && rows[n] != x
    requires !(rows[n].eventId == x.eventId && rows[n].symbol == x.symbol && rows[n].ts == x.ts)
    ensures IsLatest(rows, x) <==> IsLatest(rows[..n], x)
  {
    if IsLatest(rows[..n], x) {
      var i :| 0 <= i < n && rows[..n][i] == x && forall j | i < j < n ::
        !(rows[..n][j].eventId == x.eventId && rows[..n][j].symbol == x.symbol && rows[..n][j].ts == x.ts);
      assert rows[i] == x && forall j | i < j < n :: rows[j] == rows[..n][j];
    }
    if IsLatest(rows, x) {
      var i :| 0 <= i <= n && rows[i] == x && forall j | i < j <= n ::
        !(rows[j].eventId == x.eventId && rows[j].symbol == x.symbol && rows[j].ts == x.ts);
      assert rows[..n][i] == x && forall j | i < j < n :: rows[..n][j] == rows[j];
    }
  }

  lemma {:induction false} LastWithJoined(a: seq<Row>, b: seq<Row>, k: Key)
    ensures LastWith(a + b, k) == if LastWith(b, k).Some? then LastWith(b, k) else LastWith(a, k)
  {
    if b == [] {
      assert a + b == a;
    } else {
      var n := |b| - 1;
      assert a + b == (a + b[..n]) + [b[n]];
      LastWithJoined(a, b[..n], k);
      LastWithConcat(a + b[..n], b[n], k);
    }
  }

  /** The rows that a limit keeps hold the last version of each row they hold. */
  lemma LimitedLast(rows: seq<Row>, n: int, k: Key)
    requires n > 0
    ensures var kept := LastRows(Sort(rows), n);
            LastWith(kept, k).Some? ==> LastWith(kept, k) == LastWith(rows, k)
  {
    var s := Sort(rows);
    var d := if n >= |s| then 0 else |s| - n;
    LastOfInstant(rows, k);
    LastOfInstant(s, k);
    SortIsStable(rows, k.ts);
    hide Sort, LastWith, AtTime;
    assert LastRows(s, n) == s[d..] && s == s[..d] + s[d..];
    LastWithJoined(s[..d], s[d..], k);
  }

  /** Sorting and deduplicating show exactly the last versions. */
  lemma ShownIsLast(rows: seq<Row>, x: Row)
    ensures x in Sort(Dedupe(rows)) <==> LastWith(rows, KeyOf(x)) == Some(x)
    ensures Sorted(Sort(Dedupe(rows))) && DistinctKeys(Sort(Dedupe(rows)))
  {
    DedupeKeepsLast(rows, x);
    SortSorts(Dedupe(rows));
    SortDistinct(Dedupe(rows));
    hide Sort, Dedupe, LastWith;
    assert x in Sort(Dedupe(rows)) <==> x in multiset(Sort(Dedupe(rows)));
    assert x in Dedupe(rows) <==> x in multiset(Dedupe(rows));
  }

  /**
    What the history route shows, end to end: without a limit exactly the current versions of the rows
    of that symbol in that range, each once and ordered by time; with one, no more rows than it says,
    each of them such a row.
   */
  lemma AnswerIsCurrent(ticks: seq<Row>, cachedRows: seq<Row>, symbol: string, frm: int, to: int, limit: Option<int>, x: Row)
    ensures var answer := Answer(Matching(ticks, symbol, frm, to), Matching(cachedRows, symbol, frm, to), limit);
            && Sorted(answer) && DistinctKeys(answer)
            && (limit.None? ==> (x in answer <==> Current(ticks, cachedRows, symbol, frm, to, x)))
            && (limit.Some? ==> |answer| <= (if limit.value > 0 then limit.value else 0))
            && (x in answer ==> Current(ticks, cachedRows, symbol, frm, to, x))
  {
    var stored, cached := Matching(ticks, symbol, frm, to), Matching(cachedRows, symbol, frm, to);
    var k := KeyOf(x);
    LastMatching(ticks, symbol, frm, to, k);
    LastMatching(cachedRows, symbol, frm, to, k);
    LastWithJoined(ticks, cachedRows, k);
    LatestIsLastWith(ticks + cachedRows, x);
    hide IsLatest, Matching, LastWith, Sort, Dedupe;
    var kept := Limited(stored, limit);
    LastWithJoined(kept, cached, k);
    ShownIsLast(kept + cached, x);
    if limit.Some? && limit.value > 0 {
      LimitedLast(stored, limit.value, k);
      var ordered := Sort(Dedupe(kept + cached));
      TailOf(ordered, limit.value, x);
    } else if limit.Some? {
      NoRowWith(k);
    }
  }

  lemma NoRowWith(k: Key)
    ensures LastWith([], k) == None
  {
  }

  lemma TailOf(s: seq<Row>, n: int, x: Row)
    requires n > 0 && Sorted(s) && DistinctKeys(s)
    ensures Sorted(LastRows(s, n)) && DistinctKeys(LastRows(s, n)) && |LastRows(s, n)| <= n
    ensures x in LastRows(s, n) ==> x in s
  {
  }

  method MarketHistory(store: InMemoryTimeSeriesStore, cachedRows: seq<Row>, symbol: string, frm: int, to: int, limit: Option<int>)
    returns (ordered: seq<Row>)
    ensures ordered == Answer(Matching(store.ticks, symbol, frm, to), Matching(cachedRows, symbol, frm, to), limit)
    ensures Sorted(ordered) && DistinctKeys(ordered)
    ensures limit.None? ==> forall x :: x in ordered <==> Current(store.ticks, cachedRows, symbol, frm, to, x)
    ensures forall x | x in ordered :: Current(store.ticks, cachedRows, symbol, frm, to, x)
    ensures limit.Some? ==> |ordered| <= if limit.value > 0 then limit.value else 0
  {
    hide Answer, Matching, Sort, Dedupe, Current;
    var rows := store.History(symbol, frm, to, limit);
    var cached := Matching(cachedRows, symbol, frm, to);
    var merged := DedupeRows(rows + cached);
    ordered := Sort(merged);
    if limit.Some? {
      ordered := if limit.value > 0 then LastRows(ordered, limit.value) else [];
    }
    AnswerIs(Matching(store.ticks, symbol, frm, to), cached, limit);
    AnswerIsCurrent(store.ticks, cachedRows, symbol, frm, to, limit, Row("", "", 0, ""));
    forall x
      ensures limit.None? ==> (x in ordered <==> Current(store.ticks, cachedRows, symbol, frm, to, x))
      ensures x in ordered ==> Current(store.ticks, cachedRows, symbol, frm, to, x)
    {
      AnswerIsCurrent(store.ticks, cachedRows, symbol, frm, to, limit, x);
    }
  }

  lemma AnswerIs(stored: seq<Row>, cached: seq<Row>, limit: Option<int>)
    ensures var ordered := Sort(Dedupe(Limited(stored, limit) + cached));
            Answer(stored, cached, limit)
            == if limit.None? then ordered else if limit.value > 0 then LastRows(ordered, limit.value) else []
  {
    hide Sort, Dedupe, Limited;
  }
}
