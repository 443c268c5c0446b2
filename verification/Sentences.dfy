/**
  Sentences: a paragraph is cut after `.`, `!` or `?` followed by whitespace, and each
  piece is located again in the paragraph with `str.find`.
 */
module Sentences {
  import opened Text
  import opened Segments

  /** The lookbehind pattern `(?<=[.!?])\s+` matches from position `i`. */
  predicate SentenceBoundary(s: string, i: int) {
    0 < i < |s| && IsSpace(s[i]) && s[i - 1] in ".!?"
  }

  predicate NoBoundary(s: string, lo: int, hi: int) {
    forall i | lo <= i < hi :: !SentenceBoundary(s, i)
  }

  function NextBoundary(s: string, i: nat): (b: nat)
    requires i <= |s|
    ensures i <= b <= |s|
    ensures b < |s| ==> SentenceBoundary(s, b)
    ensures NoBoundary(s, i, b)
    decreases |s| - i
  {
    if i == |s| || SentenceBoundary(s, i) then i else NextBoundary(s, i + 1)
  }

  /** One piece of the split: it starts at `lo`, ends at the next boundary, and the next piece starts at `next`. */
  ghost predicate PieceAt(s: string, part: string, lo: nat, next: nat) {
    && lo <= |s| && CleanCut(s, 0, lo)
    && part == s[lo..NextBoundary(s, lo)]
    && next == SpaceEnd(s, NextBoundary(s, lo))
  }

  ghost predicate PiecesOf(s: string, parts: seq<string>, starts: seq<nat>) {
    && |starts| == |parts| + 1 && starts[0] == 0
    && forall k | 0 <= k < |parts| :: PieceAt(s, parts[k], starts[k], starts[k + 1])
  }

  /** `_SENTENCE_BOUNDARY.split(s)`; the piece `parts[k]` starts at `starts[k]`. */
  method SplitOnBoundaries(s: string) returns (parts: seq<string>, ghost starts: seq<nat>)
    ensures |starts| == |parts| + 1 && starts[0] == 0 && starts[|parts|] == |s|
    ensures PiecesOf(s, parts, starts)
  {
    parts, starts := [], [0];
    var from := 0;
    while true
      invariant PiecesOf(s, parts, starts) && starts[|parts|] == from <= |s|
      invariant CleanCut(s, 0, from)
      decreases |s| - from
    {
      var b := NextBoundary(s, from);
      parts, starts := parts + [s[from..b]], starts + [SpaceEnd(s, b)];
      if b == |s| {
        return;
      }
      from := SpaceEnd(s, b);
    }
  }

  /** Sentences are maximal: no boundary inside one, and every one but the last ends at a boundary. */
  predicate AreSentences(segs: seq<TextSegment>, t: string, base: int) {
    segs != [] ==>
      var rest, last := segs[..|segs| - 1], segs[|segs| - 1];
      && Exact(last, t, base) && Trimmed(last.text) && NoBoundary(t, last.start - base + 1, last.end - base)
      && (rest != [] ==> SentenceBoundary(t, rest[|rest| - 1].end - base))
      && AreSentences(rest, t, base)
  }

  /** The sentences found before `next`, and where the next search starts. */
  ghost predicate Found(sentences: seq<TextSegment>, t: string, base: int, searchFrom: int, next: int) {
    && 0 <= searchFrom <= next <= |t| && Gap(t, searchFrom, next)
    && Tiles(sentences, t, base, 0, next) && AreSentences(sentences, t, base)
    && (sentences != [] && next < |t| ==> SentenceBoundary(t, sentences[|sentences| - 1].end - base))
  }

  lemma FoundBlank(sentences: seq<TextSegment>, part: string, t: string, base: int, searchFrom: nat, lo: nat, next: nat)
    requires PieceAt(t, part, lo, next) && Found(sentences, t, base, searchFrom, lo) && Strip(part) == ""
    ensures Found(sentences, t, base, searchFrom + |part|, next)
  {
    BlankPart(part, t, lo, NextBoundary(t, lo));
    TilesExtend(sentences, t, base, 0, lo, next);
  }

  /** `find` lands on the piece itself, not on an earlier look-alike. */
  lemma FindPiece(part: string, t: string, base: int, searchFrom: nat, lo: nat, next: nat)
    requires PieceAt(t, part, lo, next) && Strip(part) != ""
    requires searchFrom <= lo && Gap(t, searchFrom, lo)
    ensures var seg := PartSegment(part, base + lo);
            Find(t, Strip(part), searchFrom) == seg.start - base >= 0 && seg.text == Strip(part)
            && seg == TextSegment(seg.text, seg.start, seg.start + |seg.text|, false)
  {
    hide Strip, Find;
    PartPlace(part, t, base, lo, NextBoundary(t, lo));
    FindExact(t, Strip(part), searchFrom, PartSegment(part, base + lo).start - base);
  }

  lemma AreSentencesSnoc(sentences: seq<TextSegment>, seg: TextSegment, t: string, base: int)
    requires AreSentences(sentences, t, base)
    requires Exact(seg, t, base) && Trimmed(seg.text) && NoBoundary(t, seg.start - base + 1, seg.end - base)
    requires sentences != [] ==> SentenceBoundary(t, sentences[|sentences| - 1].end - base)
    ensures AreSentences(sentences + [seg], t, base)
  {
    assert (sentences + [seg])[..|sentences|] == sentences;
  }

  /** A piece followed by another ends in punctuation, so stripping it takes nothing off its end. */
  lemma PieceEnd(t: string, lo: nat, next: nat, end: nat)
    requires lo <= |t| && next == SpaceEnd(t, NextBoundary(t, lo)) && next < |t|
    requires end <= NextBoundary(t, lo) && Gap(t, end, NextBoundary(t, lo))
    ensures SentenceBoundary(t, end)
  {
    var hi := NextBoundary(t, lo);
    assert t[hi - 1] == '.' || t[hi - 1] == '!' || t[hi - 1] == '?';
  }

  /** The next sentence extends the tiling, is maximal, and ends at a boundary unless it is the last. */
  lemma NextSentence(sentences: seq<TextSegment>, part: string, t: string, base: int, searchFrom: nat, lo: nat, next: nat)
    requires PieceAt(t, part, lo, next) && Found(sentences, t, base, searchFrom, lo) && Strip(part) != ""
    ensures var seg := PartSegment(part, base + lo);
            && next <= |t|
            && Tiles(sentences + [seg], t, base, 0, next)
            && AreSentences(sentences + [seg], t, base)
            && (next < |t| ==> SentenceBoundary(t, seg.end - base))
            && 0 <= seg.end - base <= next && Gap(t, seg.end - base, next)
  {
    hide Strip, SentenceBoundary, PartSegment, AreSentences, Tiles;
    var seg := PartSegment(part, base + lo);
    PartPlace(part, t, base, lo, NextBoundary(t, lo));
    TilesSnoc(sentences, seg, t, base, 0, lo, next);
    AreSentencesSnoc(sentences, seg, t, base);
    if next < |t| { PieceEnd(t, lo, next, seg.end - base); }
  }

  lemma FoundText(sentences: seq<TextSegment>, part: string, t: string, base: int, searchFrom: nat, lo: nat, next: nat)
    requires PieceAt(t, part, lo, next) && Found(sentences, t, base, searchFrom, lo) && Strip(part) != ""
    ensures Find(t, Strip(part), searchFrom) >= 0
    ensures var at := Find(t, Strip(part), searchFrom);
            Found(sentences + [TextSegment(Strip(part), base + at, base + (at + |Strip(part)|), false)],
                  t, base, at + |Strip(part)|, next)
  {
    hide Strip, Find, PartSegment, PieceAt, Tiles, AreSentences, SentenceBoundary, Gap;
    FindPiece(part, t, base, searchFrom, lo, next);
    NextSentence(sentences, part, t, base, searchFrom, lo, next);
    var at, seg := Find(t, Strip(part), searchFrom), PartSegment(part, base + lo);
    assert seg.end - base == at + |Strip(part)|;
    assert TextSegment(Strip(part), base + at, base + (at + |Strip(part)|), false) == seg;
    assert (sentences + [seg])[|sentences|] == seg;
  }

  lemma FoundNone(t: string, base: int)
    ensures Found([], t, base, 0, 0)
    ensures Strip(t) == "" ==> Tiles([], t, base, 0, |t|) && AreSentences([], t, base)
  {
  }

  lemma FoundAll(sentences: seq<TextSegment>, t: string, base: int, searchFrom: int)
    requires Found(sentences, t, base, searchFrom, |t|)
    ensures Tiles(sentences, t, base, 0, |t|) && AreSentences(sentences, t, base)
    ensures sentences == [] ==> Strip(t) == ""
  {
    if sentences == [] { assert forall i | 0 <= i < |t| :: IsSpace(t[i]); }
  }

  lemma PieceOf(t: string, parts: seq<string>, starts: seq<nat>, k: nat)
    requires PiecesOf(t, parts, starts) && k < |parts|
    ensures k + 1 < |starts| && PieceAt(t, parts[k], starts[k], starts[k + 1])
  {
  }

  /** Every sentence is exactly the text it names; `find` never needs its fallbacks. */
  method SplitSentences(segment: TextSegment) returns (sentences: seq<TextSegment>)
    ensures Tiles(sentences, segment.text, segment.start, 0, |segment.text|)
    ensures AreSentences(sentences, segment.text, segment.start)
  {
    hide *;
    ghost var t, base := segment.text, segment.start;
    FoundNone(t, base);
    if Strip(segment.text) == "" {
      return [];
    }
    sentences := [];
    var searchFrom := 0;
    var parts, starts := SplitOnBoundaries(segment.text);
    ghost var next := 0;
    for k := 0 to |parts|
      invariant |starts| == |parts| + 1 && next == starts[k] && 0 <= searchFrom
      invariant Found(sentences, t, base, searchFrom, next)
    {
      var part := parts[k];
      var stripped := Strip(part);
      PieceOf(t, parts, starts, k);
      ghost var lo := next;
      next := starts[k + 1];
      if stripped == "" {
        FoundBlank(sentences, part, t, base, searchFrom, lo, next);
        searchFrom := searchFrom + |part|;
        assert Found(sentences, t, base, searchFrom, next);
        continue;
      }
      var localStart := Find(segment.text, stripped, searchFrom);
      if localStart == -1 {
        localStart := Find(segment.text, stripped, 0);
      }
      if localStart == -1 {
        localStart := searchFrom;
      }
      FoundText(sentences, part, t, base, searchFrom, lo, next);
      var localEnd := localStart + |stripped|;
      searchFrom := localEnd;
      sentences := sentences + [TextSegment(stripped, segment.start + localStart, segment.start + localEnd, false)];
      assert Found(sentences, t, base, searchFrom, next);
    }
    FoundAll(sentences, t, base, searchFrom);
    if sentences == [] {
      sentences := [segment];
    }
  }
}
