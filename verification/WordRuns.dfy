/**
  Long sentences: a sentence over the limits is packed greedily into runs of words.
  The greedy packing uses as few runs as any packing can.
 */
module WordRuns {
  import opened Text
  import opened Segments

  // ---------------------------------------------------------------------------
  // Packings of a word list into runs
  // ---------------------------------------------------------------------------

  /** The words `ws[lo..hi]`, joined, are within both limits. */
  predicate Fits(ws: seq<string>, lo: int, hi: int, maxChars: int, maxTokens: int) {
    0 <= lo <= hi <= |ws| && |Join(ws[lo..hi])| <= maxChars && hi - lo <= maxTokens
  }

  /** A run no packing can refuse: one word, or several that fit. */
  predicate RunOk(ws: seq<string>, lo: int, hi: int, maxChars: int, maxTokens: int) {
    0 <= lo < hi <= |ws| && (hi == lo + 1 || Fits(ws, lo, hi, maxChars, maxTokens))
  }

  /** Run `i` of `cuts` is `ws[cuts[i]..cuts[i + 1]]`. */
  ghost predicate RunAt(ws: seq<string>, cuts: seq<nat>, i: int, maxChars: int, maxTokens: int) {
    0 <= i < |cuts| - 1 && RunOk(ws, cuts[i], cuts[i + 1], maxChars, maxTokens)
  }

  /** Run `i` has no room for the word that follows it. */
  ghost predicate FullAt(ws: seq<string>, cuts: seq<nat>, i: int, maxChars: int, maxTokens: int) {
    0 <= i < |cuts| - 1 && (cuts[i + 1] < |ws| ==> !Fits(ws, cuts[i], cuts[i + 1] + 1, maxChars, maxTokens))
  }

  /** `cuts` packs the first `upto` words into runs. */
  ghost predicate PacksTo(ws: seq<string>, cuts: seq<nat>, upto: int, maxChars: int, maxTokens: int) {
    && cuts != [] && cuts[0] == 0 && cuts[|cuts| - 1] == upto <= |ws|
    && forall i | 0 <= i < |cuts| - 1 :: RunAt(ws, cuts, i, maxChars, maxTokens)
  }

  /** Any way to cut all the words into in-order runs. */
  ghost predicate IsPacking(ws: seq<string>, cuts: seq<nat>, maxChars: int, maxTokens: int) {
    PacksTo(ws, cuts, |ws|, maxChars, maxTokens)
  }

  /** Every run is full. */
  ghost predicate Greedy(ws: seq<string>, cuts: seq<nat>, maxChars: int, maxTokens: int) {
    forall i | 0 <= i < |cuts| - 1 :: FullAt(ws, cuts, i, maxChars, maxTokens)
  }

  lemma FitsSubrun(ws: seq<string>, lo: nat, a: nat, b: nat, hi: nat, maxChars: int, maxTokens: int)
    requires lo <= a < b <= hi && Fits(ws, lo, hi, maxChars, maxTokens)
    ensures Fits(ws, a, b, maxChars, maxTokens)
  {
    JoinSubrange(ws[lo..hi], a - lo, b - lo);
    SliceOfSlice(ws, lo, hi, a - lo, b - lo);
  }

  /** Greedy stays ahead: after `k` runs it has used at least as many words as any packing. */
  lemma {:induction false} GreedyStaysAhead(ws: seq<string>, g: seq<nat>, c: seq<nat>, k: nat, maxChars: int, maxTokens: int)
    requires IsPacking(ws, g, maxChars, maxTokens) && Greedy(ws, g, maxChars, maxTokens)
    requires IsPacking(ws, c, maxChars, maxTokens)
    requires k < |g| && k < |c|
    ensures c[k] <= g[k]
  {
    if k > 0 {
      var i := k - 1;
      GreedyStaysAhead(ws, g, c, i, maxChars, maxTokens);
      if g[k] < c[k] {
        assert RunAt(ws, c, i, maxChars, maxTokens) && RunAt(ws, g, i, maxChars, maxTokens);
        assert FullAt(ws, g, i, maxChars, maxTokens);
        FitsSubrun(ws, c[i], g[i], g[k] + 1, c[k], maxChars, maxTokens);
      }
    }
  }

  /** The greedy packing is minimal among all in-order packings. */
  lemma GreedyIsMinimal(ws: seq<string>, g: seq<nat>, c: seq<nat>, maxChars: int, maxTokens: int)
    requires IsPacking(ws, g, maxChars, maxTokens) && Greedy(ws, g, maxChars, maxTokens)
    requires IsPacking(ws, c, maxChars, maxTokens)
    ensures |g| <= |c|
  {
    if |c| < |g| {
      var k := |c| - 1;
      CutBeforeLast(ws, g, k, maxChars, maxTokens);
      GreedyStaysAhead(ws, g, c, k, maxChars, maxTokens);
    }
  }

  lemma CutBeforeLast(ws: seq<string>, cuts: seq<nat>, k: nat, maxChars: int, maxTokens: int)
    requires IsPacking(ws, cuts, maxChars, maxTokens) && k + 1 < |cuts|
    ensures cuts[k] < |ws|
    decreases |cuts| - k
  {
    assert RunAt(ws, cuts, k, maxChars, maxTokens);
    if k + 2 < |cuts| { CutBeforeLast(ws, cuts, k + 1, maxChars, maxTokens); }
  }

  // ---------------------------------------------------------------------------
  // Word matches
  // ---------------------------------------------------------------------------

  /** Every match is a word, standing exactly where it was found. */
  predicate AreMatches(ms: seq<TextSegment>, t: string, base: int) {
    forall i | 0 <= i < |ms| :: Exact(ms[i], t, base) && IsWord(ms[i].text)
  }

  /** The words found before position `i`, which starts the next word. */
  ghost predicate Scanned(ms: seq<TextSegment>, t: string, base: int, i: int) {
    && 0 <= i <= |t| && (i < |t| ==> !IsSpace(t[i]) && CleanCut(t, 0, i))
    && Tiles(ms, t, base, 0, i) && AreMatches(ms, t, base)
  }

  lemma ScannedNone(t: string, base: int)
    ensures Scanned([], t, base, SpaceEnd(t, 0))
  {
  }

  lemma ScannedWord(ms: seq<TextSegment>, t: string, base: int, i: nat)
    requires Scanned(ms, t, base, i) && i < |t|
    ensures var e := WordEnd(t, i);
            i < e && Scanned(ms + [TextSegment(t[i..e], base + i, base + e, false)], t, base, SpaceEnd(t, e))
  {
    hide Tiles;
    var e := WordEnd(t, i);
    var m := TextSegment(t[i..e], base + i, base + e, false);
    assert IsWord(m.text) && Exact(m, t, base);
    TilesSnoc(ms, m, t, base, 0, i, SpaceEnd(t, e));
  }

  lemma ScannedAll(ms: seq<TextSegment>, t: string, base: int)
    requires Scanned(ms, t, base, |t|)
    ensures Tiles(ms, t, base, 0, |t|) && AreMatches(ms, t, base)
  {
  }

  /** `re.finditer(r"\S+", t)`, with positions shifted by `base`. */
  method FindWords(t: string, base: int) returns (ms: seq<TextSegment>)
    ensures Tiles(ms, t, base, 0, |t|) && AreMatches(ms, t, base)
  {
    hide *;
    ms := [];
    var i := SpaceEnd(t, 0);
    ScannedNone(t, base);
    while i < |t|
      invariant 0 <= i <= |t| && Scanned(ms, t, base, i)
    {
      ScannedWord(ms, t, base, i);
      var e := WordEnd(t, i);
      ms := ms + [TextSegment(t[i..e], base + i, base + e, false)];
      i := SpaceEnd(t, e);
      assert Scanned(ms, t, base, i);
    }
    ScannedAll(ms, t, base);
  }

  lemma MatchesAreWords(ms: seq<TextSegment>, t: string, base: int, lo: nat, hi: nat)
    requires lo <= hi <= |t| && Tiles(ms, t, base, lo, hi) && AreMatches(ms, t, base)
    ensures Texts(ms) == Words(t[lo..hi])
  {
    forall i | 0 <= i < |ms| ensures StandsFor(ms[i], t, base) {
      TilesInside(ms, i, t, base, lo, hi);
    }
    TilesKeepWords(ms, t, base, lo, hi);
    WordsOfWords(Texts(ms));
  }

  lemma {:induction false} TilesInside(ms: seq<TextSegment>, i: nat, t: string, base: int, lo: nat, hi: nat)
    requires lo <= hi <= |t| && Tiles(ms, t, base, lo, hi) && i < |ms|
    ensures base + lo <= ms[i].start < ms[i].end <= base + hi
    decreases |ms|
  {
    if i < |ms| - 1 {
      TilesInside(ms[..|ms| - 1], i, t, base, lo, ms[|ms| - 1].start - base);
    }
  }

  /** The matches `ms[a..b]` tile the text from the first one's start to the last one's end. */
  lemma {:induction false} TilesMiddle(ms: seq<TextSegment>, a: nat, b: nat, t: string, base: int, lo: nat, hi: nat)
    requires lo <= hi <= |t| && Tiles(ms, t, base, lo, hi) && a < b <= |ms|
    ensures base + lo <= ms[a].start < ms[b - 1].end <= base + hi
    ensures Tiles(ms[a..b], t, base, ms[a].start - base, ms[b - 1].end - base)
    decreases |ms|
  {
    var rest, last := ms[..|ms| - 1], ms[|ms| - 1];
    if b < |ms| {
      TilesMiddle(rest, a, b, t, base, lo, last.start - base);
      assert rest[a..b] == ms[a..b];
    } else if a == b - 1 {
      assert ms[a..b] == [last];
    } else {
      TilesMiddle(rest, a, b - 1, t, base, lo, last.start - base);
      TilesLastGap(rest, t, base, lo, last.start - base);
      assert rest[a..b - 1] == ms[a..b][..b - 1 - a];
    }
  }

  // ---------------------------------------------------------------------------
  // The greedy loop
  // ---------------------------------------------------------------------------

  /** The segment made of a run of matches. */
  function Piece(run: seq<TextSegment>): TextSegment
    requires run != []
  {
    TextSegment(Join(Texts(run)), run[0].start, run[|run| - 1].end, false)
  }

  /** A run of matches, joined, stands for the range it spans. */
  lemma PieceStandsFor(ms: seq<TextSegment>, a: nat, b: nat, t: string, base: int)
    requires a < b <= |ms| && Tiles(ms, t, base, 0, |t|) && AreMatches(ms, t, base)
    ensures StandsFor(Piece(ms[a..b]), t, base) && Words(Piece(ms[a..b]).text) == Texts(ms)[a..b]
  {
    hide Tiles, IsSpace, Join, Words;
    var run := ms[a..b];
    TilesMiddle(ms, a, b, t, base, 0, |t|);
    assert AreMatches(run, t, base);
    MatchesAreWords(run, t, base, run[0].start - base, run[|run| - 1].end - base);
    WordsJoinWords(Texts(run));
    JoinTrimmedWords(Texts(run));
    assert Texts(run) == Texts(ms)[a..b];
  }

  /** The pieces closed so far; the current run is `ms[cuts.last..k]`. */
  ghost predicate Running(ms: seq<TextSegment>, cuts: seq<nat>, pieces: seq<TextSegment>, k: nat, maxChars: int, maxTokens: int) {
    && k <= |ms| && cuts != [] && |pieces| == |cuts| - 1
    && var ws, c := Texts(ms), cuts[|cuts| - 1];
       && PacksTo(ws, cuts, c, maxChars, maxTokens) && Greedy(ws, cuts, maxChars, maxTokens)
       && (if k == 0 then c == 0 else RunOk(ws, c, k, maxChars, maxTokens))
       && PiecesOf(pieces, ms, cuts)
  }

  ghost predicate PieceAt(pieces: seq<TextSegment>, ms: seq<TextSegment>, cuts: seq<nat>, i: int) {
    && 0 <= i < |cuts| - 1 && i < |pieces|
    && cuts[i] < cuts[i + 1] <= |ms| && pieces[i] == Piece(ms[cuts[i]..cuts[i + 1]])
  }

  ghost predicate PiecesOf(pieces: seq<TextSegment>, ms: seq<TextSegment>, cuts: seq<nat>) {
    && |pieces| == |cuts| - 1
    && forall i | 0 <= i < |pieces| :: PieceAt(pieces, ms, cuts, i)
  }

  /** What the candidate text measures: the current run with one more word. */
  lemma Candidate(ms: seq<TextSegment>, t: string, base: int, c: nat, k: nat, maxChars: int, maxTokens: int)
    requires c <= k < |ms| && AreMatches(ms, t, base)
    ensures var candidate := Join(Texts(ms[c..k]) + [ms[k].text]);
            Fits(Texts(ms), c, k + 1, maxChars, maxTokens) <==>
            !(|candidate| > maxChars || CountTokens(candidate) > maxTokens)
  {
    hide Join, Words, IsSpace;
    var ws := Texts(ms)[c..k + 1];
    assert Texts(ms[c..k]) + [ms[k].text] == ws;
    assert forall i | 0 <= i < |ws| :: ws[i] == ms[c + i].text;
    WordsJoinWords(ws);
  }

  lemma PiecesSnoc(pieces: seq<TextSegment>, ms: seq<TextSegment>, cuts: seq<nat>, k: nat)
    requires cuts != [] && PiecesOf(pieces, ms, cuts) && cuts[|cuts| - 1] < k <= |ms|
    ensures PiecesOf(pieces + [Piece(ms[cuts[|cuts| - 1]..k])], ms, cuts + [k])
  {
    var last := |cuts| - 1;
    var cuts', pieces' := cuts + [k], pieces + [Piece(ms[cuts[last]..k])];
    forall i | 0 <= i < |pieces'| ensures PieceAt(pieces', ms, cuts', i) {
      if i < last { assert PieceAt(pieces, ms, cuts, i); }
    }
  }

  lemma RunsSnoc(ws: seq<string>, cuts: seq<nat>, k: nat, maxChars: int, maxTokens: int)
    requires cuts != [] && PacksTo(ws, cuts, cuts[|cuts| - 1], maxChars, maxTokens) && Greedy(ws, cuts, maxChars, maxTokens)
    requires RunOk(ws, cuts[|cuts| - 1], k, maxChars, maxTokens)
    requires k < |ws| ==> !Fits(ws, cuts[|cuts| - 1], k + 1, maxChars, maxTokens)
    ensures PacksTo(ws, cuts + [k], k, maxChars, maxTokens) && Greedy(ws, cuts + [k], maxChars, maxTokens)
  {
    hide Fits;
    var last, cuts' := |cuts| - 1, cuts + [k];
    forall i | 0 <= i < |cuts'| - 1 ensures RunAt(ws, cuts', i, maxChars, maxTokens) && FullAt(ws, cuts', i, maxChars, maxTokens) {
      if i < last { assert RunAt(ws, cuts, i, maxChars, maxTokens) && FullAt(ws, cuts, i, maxChars, maxTokens); }
    }
  }

  lemma CloseRun(ms: seq<TextSegment>, cuts: seq<nat>, pieces: seq<TextSegment>, k: nat, maxChars: int, maxTokens: int)
    requires Running(ms, cuts, pieces, k, maxChars, maxTokens) && k > 0
    requires k < |ms| ==> !Fits(Texts(ms), cuts[|cuts| - 1], k + 1, maxChars, maxTokens)
    ensures cuts[|cuts| - 1] < k
    ensures var pieces' := pieces + [Piece(ms[cuts[|cuts| - 1]..k])];
            && PacksTo(Texts(ms), cuts + [k], k, maxChars, maxTokens)
            && Greedy(Texts(ms), cuts + [k], maxChars, maxTokens)
            && PiecesOf(pieces', ms, cuts + [k])
            && (k == |ms| ==> IsPacking(Texts(ms), cuts + [k], maxChars, maxTokens))
            && (k < |ms| ==> Running(ms, cuts + [k], pieces', k + 1, maxChars, maxTokens))
  {
    hide Fits, Piece;
    RunsSnoc(Texts(ms), cuts, k, maxChars, maxTokens);
    PiecesSnoc(pieces, ms, cuts, k);
  }

  lemma PieceTiles(pieces: seq<TextSegment>, ms: seq<TextSegment>, a: nat, b: nat, t: string, base: int)
    requires Tiles(ms, t, base, 0, |t|) && a < b <= |ms|
    requires 0 <= StartOf(ms, a, base, |t|) <= |t| && CleanCut(t, 0, StartOf(ms, a, base, |t|))
    requires Tiles(pieces, t, base, 0, StartOf(ms, a, base, |t|))
    ensures 0 <= StartOf(ms, b, base, |t|) <= |t| && (b < |ms| ==> CleanCut(t, 0, StartOf(ms, b, base, |t|)))
    ensures Tiles(pieces + [Piece(ms[a..b])], t, base, 0, StartOf(ms, b, base, |t|))
  {
    hide IsSpace, Join, Tiles;
    TilesMiddle(ms, a, b, t, base, 0, |t|);
    GapAfter(ms, b, t, base, 0, |t|);
    TilesSnoc(pieces, Piece(ms[a..b]), t, base, 0, ms[a].start - base, StartOf(ms, b, base, |t|));
  }

  lemma {:induction false} PiecesTile(pieces: seq<TextSegment>, ms: seq<TextSegment>, cuts: seq<nat>, n: nat, t: string, base: int)
    requires Tiles(ms, t, base, 0, |t|) && cuts != [] && cuts[0] == 0 && PiecesOf(pieces, ms, cuts) && n <= |pieces|
    ensures cuts[n] <= |ms| && 0 <= StartOf(ms, cuts[n], base, |t|) <= |t|
    ensures cuts[n] < |ms| ==> CleanCut(t, 0, StartOf(ms, cuts[n], base, |t|))
    ensures Tiles(pieces[..n], t, base, 0, StartOf(ms, cuts[n], base, |t|))
    decreases n
  {
    hide IsSpace, Piece, CleanCut;
    if n == 0 {
      if ms != [] { TilesPrefix(ms, 0, t, base, 0, |t|); }
    } else {
      assert PieceAt(pieces, ms, cuts, n - 1);
      PiecesTile(pieces, ms, cuts, n - 1, t, base);
      PieceTiles(pieces[..n - 1], ms, cuts[n - 1], cuts[n], t, base);
      assert pieces[..n] == pieces[..n - 1] + [pieces[n - 1]];
    }
  }

  lemma StartRunning(ms: seq<TextSegment>, maxChars: int, maxTokens: int)
    ensures Running(ms, [0], [], 0, maxChars, maxTokens)
    ensures ms == [] ==> IsPacking(Texts(ms), [0], maxChars, maxTokens) && Greedy(Texts(ms), [0], maxChars, maxTokens)
    ensures PiecesOf([], ms, [0])
  {
  }

  /** The current run takes one more word that still fits, or its first word. */
  lemma GrowRun(ms: seq<TextSegment>, cuts: seq<nat>, pieces: seq<TextSegment>, k: nat, maxChars: int, maxTokens: int)
    requires Running(ms, cuts, pieces, k, maxChars, maxTokens) && k < |ms|
    requires k == cuts[|cuts| - 1] || Fits(Texts(ms), cuts[|cuts| - 1], k + 1, maxChars, maxTokens)
    ensures Running(ms, cuts, pieces, k + 1, maxChars, maxTokens)
  {
  }

  /** Piece `i` holds the words `cuts[i]` to `cuts[i + 1]` of the sentence, single-spaced. */
  ghost predicate HoldsRun(pieces: seq<TextSegment>, cuts: seq<nat>, t: string, i: int) {
    && 0 <= i < |cuts| - 1 && i < |pieces|
    && cuts[i] < cuts[i + 1] <= |Words(t)| && pieces[i].text == Join(Words(t)[cuts[i]..cuts[i + 1]])
  }

  /** Everything the greedy loop promises, once the last run is closed. */
  ghost predicate SplitOf(pieces: seq<TextSegment>, cuts: seq<nat>, t: string, base: int, maxChars: int, maxTokens: int) {
    && Tiles(pieces, t, base, 0, |t|) && AllStandFor(pieces, t, base)
    && |pieces| == |cuts| - 1
    && (forall i | 0 <= i < |pieces| :: HoldsRun(pieces, cuts, t, i))
    && IsPacking(Words(t), cuts, maxChars, maxTokens) && Greedy(Words(t), cuts, maxChars, maxTokens)
  }

  lemma PiecesHoldRuns(ms: seq<TextSegment>, pieces: seq<TextSegment>, cuts: seq<nat>, t: string, base: int, i: nat)
    requires Tiles(ms, t, base, 0, |t|) && AreMatches(ms, t, base) && PiecesOf(pieces, ms, cuts)
    requires Texts(ms) == Words(t) && i < |pieces|
    ensures HoldsRun(pieces, cuts, t, i) && StandsFor(pieces[i], t, base)
  {
    hide StandsFor, Tiles, AreMatches, Words, Join;
    assert PieceAt(pieces, ms, cuts, i);
    PieceStandsFor(ms, cuts[i], cuts[i + 1], t, base);
    assert Texts(ms[cuts[i]..cuts[i + 1]]) == Texts(ms)[cuts[i]..cuts[i + 1]];
  }

  lemma SplitIs(ms: seq<TextSegment>, pieces: seq<TextSegment>, cuts: seq<nat>, t: string, base: int, maxChars: int, maxTokens: int)
    requires Tiles(ms, t, base, 0, |t|) && AreMatches(ms, t, base)
    requires PiecesOf(pieces, ms, cuts)
    requires IsPacking(Texts(ms), cuts, maxChars, maxTokens) && Greedy(Texts(ms), cuts, maxChars, maxTokens)
    ensures SplitOf(pieces, cuts, t, base, maxChars, maxTokens)
  {
    hide StandsFor, HoldsRun, Tiles, AreMatches, Words, Greedy, PieceAt, RunAt;
    PiecesTile(pieces, ms, cuts, |pieces|, t, base);
    assert pieces[..|pieces|] == pieces;
    MatchesAreWords(ms, t, base, 0, |t|);
    assert t[0..|t|] == t;
    forall i | 0 <= i < |pieces| ensures HoldsRun(pieces, cuts, t, i) && StandsFor(pieces[i], t, base) {
      PiecesHoldRuns(ms, pieces, cuts, t, base, i);
    }
  }

  lemma SplitIsMinimal(pieces: seq<TextSegment>, cuts: seq<nat>, other: seq<nat>, t: string, base: int, maxChars: int, maxTokens: int)
    requires SplitOf(pieces, cuts, t, base, maxChars, maxTokens) && IsPacking(Words(t), other, maxChars, maxTokens)
    ensures |pieces| <= |other| - 1
  {
    GreedyIsMinimal(Words(t), cuts, other, maxChars, maxTokens);
  }

  /** No in-order packing of the sentence's words uses fewer pieces. */
  method SplitLongSentence(sentence: TextSegment, maxChars: int, maxTokens: int)
    returns (pieces: seq<TextSegment>, ghost cuts: seq<nat>)
    ensures SplitOf(pieces, cuts, sentence.text, sentence.start, maxChars, maxTokens)
    ensures forall other | IsPacking(Words(sentence.text), other, maxChars, maxTokens) :: |pieces| <= |other| - 1
  {
    hide *;
    ghost var t, base := sentence.text, sentence.start;
    pieces, cuts := [], [0];
    var matches := FindWords(sentence.text, sentence.start);
    StartRunning(matches, maxChars, maxTokens);
    var current: seq<TextSegment> := [];
    ghost var from := 0;
    for k := 0 to |matches|
      invariant 0 <= from <= k && (k > 0 ==> from < k) && cuts != [] && cuts[|cuts| - 1] == from
      invariant current == matches[from..k]
      invariant Running(matches, cuts, pieces, k, maxChars, maxTokens)
      invariant k == 0 ==> pieces == [] && cuts == [0]
    {
      var word := matches[k];
      var candidate := Join(Texts(current) + [word.text]);
      Candidate(matches, t, base, from, k, maxChars, maxTokens);
      if current != [] && (|candidate| > maxChars || CountTokens(candidate) > maxTokens) {
        CloseRun(matches, cuts, pieces, k, maxChars, maxTokens);
        pieces := pieces + [Piece(current)];
        current := [word];
        cuts, from := cuts + [k], k;
        assert current == matches[from..k + 1];
      } else {
        GrowRun(matches, cuts, pieces, k, maxChars, maxTokens);
        current := current + [word];
        assert current == matches[from..k + 1];
      }
      assert Running(matches, cuts, pieces, k + 1, maxChars, maxTokens);
    }
    if current != [] {
      CloseRun(matches, cuts, pieces, |matches|, maxChars, maxTokens);
      pieces := pieces + [Piece(current)];
      cuts := cuts + [|matches|];
    }
    SplitIs(matches, pieces, cuts, t, base, maxChars, maxTokens);
    forall other | IsPacking(Words(t), other, maxChars, maxTokens) ensures |pieces| <= |other| - 1 {
      SplitIsMinimal(pieces, cuts, other, t, base, maxChars, maxTokens);
    }
  }
}
