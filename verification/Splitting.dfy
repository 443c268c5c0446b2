/**
  Cutting a whole document: paragraphs that fit are kept, the others are cut into
  sentences, and sentences that do not fit are packed into runs of words.
 */
module Splitting {
  import opened Text
  import opened Segments
  import opened Paragraphs
  import opened Sentences
  import opened WordRuns

  /** What `_validate_config` accepts. */
  predicate ValidConfig(cfg: ChunkingConfig) {
    cfg.maxChars > 0 && cfg.maxTokens > 0 && cfg.overlapChars >= 0 && cfg.overlapTokens >= 0
  }

  /** Within both limits, or a single word that nothing can shorten. */
  predicate Sized(text: string, cfg: ChunkingConfig) {
    WithinLimits(text, cfg.maxChars, cfg.maxTokens) || LongWord(text, cfg.maxChars)
  }

  /** The text is its range, verbatim or single-spaced. */
  predicate Rendered(seg: TextSegment, t: string, base: int) {
    && base <= seg.start <= seg.end <= base + |t|
    && var range := t[seg.start - base..seg.end - base];
       seg.text == range || seg.text == Join(Words(range))
  }

  predicate GoodSegment(seg: TextSegment, t: string, base: int, cfg: ChunkingConfig) {
    StandsFor(seg, t, base) && Rendered(seg, t, base) && Sized(seg.text, cfg)
  }

  predicate AllGood(segs: seq<TextSegment>, t: string, base: int, cfg: ChunkingConfig) {
    forall i | 0 <= i < |segs| :: GoodSegment(segs[i], t, base, cfg)
  }

  /** The segments cut from `t[..at]`. */
  predicate CutUpTo(segs: seq<TextSegment>, t: string, base: int, at: int, cfg: ChunkingConfig) {
    0 <= at <= |t| && Tiles(segs, t, base, 0, at) && AllGood(segs, t, base, cfg)
  }

  /** The next thing to cut: a trimmed range, with only whitespace up to `next`. */
  predicate NextRange(seg: TextSegment, t: string, base: int, at: int, next: int) {
    && 0 <= at <= next <= |t| && Exact(seg, t, base) && Trimmed(seg.text)
    && seg.start - base == at < seg.end - base <= next
    && CleanCut(t, 0, at) && Gap(t, seg.end - base, next)
  }

  lemma CutOne(segs: seq<TextSegment>, seg: TextSegment, t: string, base: int, at: nat, next: nat, cfg: ChunkingConfig)
    requires CutUpTo(segs, t, base, at, cfg) && NextRange(seg, t, base, at, next) && Sized(seg.text, cfg)
    ensures CutUpTo(segs + [seg], t, base, next, cfg)
  {
    hide IsSpace, Words, Sized;
    TilesSnoc(segs, seg, t, base, 0, at, next);
  }

  lemma CutMany(segs: seq<TextSegment>, seg: TextSegment, pieces: seq<TextSegment>, t: string, base: int, at: nat, next: nat, cfg: ChunkingConfig)
    requires CutUpTo(segs, t, base, at, cfg) && NextRange(seg, t, base, at, next)
    requires CutUpTo(pieces, seg.text, seg.start, |seg.text|, cfg)
    ensures CutUpTo(segs + pieces, t, base, next, cfg)
  {
    hide IsSpace, Words, Sized, GoodSegment;
    var end := seg.end - base;
    TilesLift(pieces, seg.text, t, at, base, 0, |seg.text|);
    TilesConcat(segs, pieces, t, base, 0, at, end);
    TilesExtend(segs + pieces, t, base, 0, end, next);
    forall i | 0 <= i < |pieces| ensures GoodSegment(pieces[i], t, base, cfg) {
      GoodLift(pieces[i], seg, t, base, cfg);
    }
  }

  lemma GoodLift(piece: TextSegment, seg: TextSegment, t: string, base: int, cfg: ChunkingConfig)
    requires Exact(seg, t, base) && GoodSegment(piece, seg.text, seg.start, cfg)
    ensures GoodSegment(piece, t, base, cfg)
  {
    hide IsSpace, Words, Sized, Join;
    SliceOfSlice(t, seg.start - base, seg.end - base, piece.start - seg.start, piece.end - seg.start);
  }

  /** The pieces of a long sentence are runs of words, so each fits or is one long word. */
  lemma PieceIsGood(pieces: seq<TextSegment>, cuts: seq<nat>, t: string, base: int, i: nat, cfg: ChunkingConfig)
    requires ValidConfig(cfg) && SplitOf(pieces, cuts, t, base, cfg.maxChars, cfg.maxTokens) && i < |pieces|
    ensures GoodSegment(pieces[i], t, base, cfg)
  {
    hide IsSpace, Words, Join, Tiles;
    assert HoldsRun(pieces, cuts, t, i) && RunAt(Words(t), cuts, i, cfg.maxChars, cfg.maxTokens);
    var run := Words(t)[cuts[i]..cuts[i + 1]];
    assert forall w | w in run :: w in Words(t);
    WordsJoinWords(run);
    if cuts[i + 1] == cuts[i] + 1 {
      JoinOne(run[0]);
      assert run == [run[0]] && run[0] in Words(t);
    }
  }

  lemma PiecesAreGood(pieces: seq<TextSegment>, cuts: seq<nat>, t: string, base: int, cfg: ChunkingConfig)
    requires ValidConfig(cfg) && SplitOf(pieces, cuts, t, base, cfg.maxChars, cfg.maxTokens)
    ensures CutUpTo(pieces, t, base, |t|, cfg)
  {
    hide IsSpace, Words, GoodSegment;
    forall i | 0 <= i < |pieces| ensures GoodSegment(pieces[i], t, base, cfg) {
      PieceIsGood(pieces, cuts, t, base, i, cfg);
    }
  }

  lemma {:induction false} SentenceAt(segs: seq<TextSegment>, i: nat, t: string, base: int)
    requires AreSentences(segs, t, base) && i < |segs|
    ensures Exact(segs[i], t, base) && Trimmed(segs[i].text)
    decreases |segs|
  {
    if i < |segs| - 1 { SentenceAt(segs[..|segs| - 1], i, t, base); }
  }

  lemma {:induction false} ParagraphAt(segs: seq<TextSegment>, i: nat, n: string)
    requires AreParagraphs(segs, n) && i < |segs|
    ensures Exact(segs[i], n, 0) && Trimmed(segs[i].text)
    decreases |segs|
  {
    if i < |segs| - 1 { ParagraphAt(segs[..|segs| - 1], i, n); }
  }

  lemma FirstStart(segs: seq<TextSegment>, t: string, base: int, cfg: ChunkingConfig)
    requires Tiles(segs, t, base, 0, |t|)
    ensures CutUpTo([], t, base, StartOf(segs, 0, base, |t|), cfg)
  {
    hide IsSpace;
    if segs != [] { TilesPrefix(segs, 0, t, base, 0, |t|); }
  }

  lemma NthRange(segs: seq<TextSegment>, i: nat, t: string, base: int)
    requires Tiles(segs, t, base, 0, |t|) && i < |segs|
    requires Exact(segs[i], t, base) && Trimmed(segs[i].text)
    ensures NextRange(segs[i], t, base, StartOf(segs, i, base, |t|), StartOf(segs, i + 1, base, |t|))
  {
    hide IsSpace, Tiles;
    TilesPrefix(segs, i, t, base, 0, |t|);
    GapAfter(segs, i + 1, t, base, 0, |t|);
  }

  lemma NthSentence(segs: seq<TextSegment>, i: nat, t: string, base: int)
    requires Tiles(segs, t, base, 0, |t|) && AreSentences(segs, t, base) && i < |segs|
    ensures NextRange(segs[i], t, base, StartOf(segs, i, base, |t|), StartOf(segs, i + 1, base, |t|))
  {
    SentenceAt(segs, i, t, base);
    NthRange(segs, i, t, base);
  }

  lemma NthParagraph(segs: seq<TextSegment>, i: nat, n: string)
    requires Tiles(segs, n, 0, 0, |n|) && AreParagraphs(segs, n) && i < |segs|
    ensures NextRange(segs[i], n, 0, StartOf(segs, i, 0, |n|), StartOf(segs, i + 1, 0, |n|))
  {
    ParagraphAt(segs, i, n);
    NthRange(segs, i, n, 0);
  }

  lemma KeptIsSized(text: string, cfg: ChunkingConfig)
    requires |text| <= cfg.maxChars && CountTokens(text) <= cfg.maxTokens
    ensures Sized(text, cfg)
  {
  }

  /** The inner loop: one paragraph that is over the limits, sentence by sentence. */
  method SplitParagraph(paragraph: TextSegment, cfg: ChunkingConfig) returns (segments: seq<TextSegment>)
    requires ValidConfig(cfg)
    ensures CutUpTo(segments, paragraph.text, paragraph.start, |paragraph.text|, cfg)
  {
    hide *;
    ghost var t, base := paragraph.text, paragraph.start;
    segments := [];
    var sentences := SplitSentences(paragraph);
    FirstStart(sentences, t, base, cfg);
    ghost var at := StartOf(sentences, 0, base, |t|);
    for j := 0 to |sentences|
      invariant at == StartOf(sentences, j, base, |t|) && CutUpTo(segments, t, base, at, cfg)
    {
      var sentence := sentences[j];
      ghost var next := StartOf(sentences, j + 1, base, |t|);
      NthSentence(sentences, j, t, base);
      RangeBounds(sentence, t, base, at, next);
      if |sentence.text| <= cfg.maxChars && CountTokens(sentence.text) <= cfg.maxTokens {
        KeptIsSized(sentence.text, cfg);
        CutOne(segments, sentence, t, base, at, next, cfg);
        segments := segments + [sentence];
      } else {
        var pieces, cuts := SplitLongSentence(sentence, cfg.maxChars, cfg.maxTokens);
        PiecesAreGood(pieces, cuts, sentence.text, sentence.start, cfg);
        CutMany(segments, sentence, pieces, t, base, at, next, cfg);
        segments := segments + pieces;
      }
      at := next;
      assert CutUpTo(segments, t, base, at, cfg);
    }
    StartOfEnd(sentences, base, |t|);
  }

  lemma RangeBounds(seg: TextSegment, t: string, base: int, at: int, next: int)
    requires NextRange(seg, t, base, at, next)
    ensures 0 <= at <= next
  {
  }

  lemma StartOfEnd(segs: seq<TextSegment>, base: int, hi: int)
    ensures StartOf(segs, |segs|, base, hi) == hi
  {
  }

  predicate Kept(paragraph: TextSegment, cfg: ChunkingConfig) {
    WithinLimits(paragraph.text, cfg.maxChars, cfg.maxTokens)
  }

  predicate AllKept(paragraphs: seq<TextSegment>, cfg: ChunkingConfig) {
    forall i | 0 <= i < |paragraphs| :: Kept(paragraphs[i], cfg)
  }

  /** The first paragraphs, as far as they all fit, are the first segments; `done` of them were looked at. */
  predicate KeptSoFar(paragraphs: seq<TextSegment>, done: nat, segments: seq<TextSegment>, cfg: ChunkingConfig) {
    && done <= |paragraphs|
    && (AllKept(paragraphs[..done], cfg) ==> segments == paragraphs[..done])
    && (forall i | 0 <= i <= done && AllKept(paragraphs[..i], cfg) :: paragraphs[..i] <= segments)
  }

  lemma KeptStart(paragraphs: seq<TextSegment>, cfg: ChunkingConfig)
    ensures KeptSoFar(paragraphs, 0, [], cfg)
  {
  }

  lemma KeptStep(paragraphs: seq<TextSegment>, done: nat, segments: seq<TextSegment>, more: seq<TextSegment>, cfg: ChunkingConfig)
    requires KeptSoFar(paragraphs, done, segments, cfg) && done < |paragraphs|
    requires Kept(paragraphs[done], cfg) ==> more == [paragraphs[done]]
    ensures KeptSoFar(paragraphs, done + 1, segments + more, cfg)
  {
    hide Kept;
    var longer := paragraphs[..done + 1];
    assert longer == paragraphs[..done] + [paragraphs[done]];
    if AllKept(longer, cfg) {
      assert Kept(longer[done], cfg);
      assert AllKept(paragraphs[..done], cfg) by {
        assert forall i | 0 <= i < done :: paragraphs[..done][i] == longer[i];
      }
    }
  }

  /** `paragraphs` are those of `n`, and as far as the first ones fit they were kept as they are. */
  predicate KeepsWhole(paragraphs: seq<TextSegment>, segments: seq<TextSegment>, n: string, cfg: ChunkingConfig) {
    && Tiles(paragraphs, n, 0, 0, |n|) && AreParagraphs(paragraphs, n)
    && (forall i | 0 <= i <= |paragraphs| && AllKept(paragraphs[..i], cfg) :: paragraphs[..i] <= segments)
  }

  lemma KeptAll(paragraphs: seq<TextSegment>, segments: seq<TextSegment>, n: string, cfg: ChunkingConfig)
    requires Tiles(paragraphs, n, 0, 0, |n|) && AreParagraphs(paragraphs, n)
    requires KeptSoFar(paragraphs, |paragraphs|, segments, cfg)
    ensures KeepsWhole(paragraphs, segments, n, cfg)
  {
  }

  lemma KeptMeans(paragraph: TextSegment, cfg: ChunkingConfig)
    ensures Kept(paragraph, cfg) <==> |paragraph.text| <= cfg.maxChars && CountTokens(paragraph.text) <= cfg.maxTokens
  {
  }

  method SplitSegments(text: string, cfg: ChunkingConfig) returns (segments: seq<TextSegment>, ghost whole: seq<TextSegment>)
    requires ValidConfig(cfg)
    ensures var n := NormalizeText(text);
            CutUpTo(segments, n, 0, |n|, cfg) && KeepsWhole(whole, segments, n, cfg)
  {
    hide *;
    ghost var n := NormalizeText(text);
    segments := [];
    var paragraphs := SplitParagraphs(text);
    whole := paragraphs;
    FirstStart(paragraphs, n, 0, cfg);
    KeptStart(paragraphs, cfg);
    ghost var at := StartOf(paragraphs, 0, 0, |n|);
    for i := 0 to |paragraphs|
      invariant at == StartOf(paragraphs, i, 0, |n|) && CutUpTo(segments, n, 0, at, cfg)
      invariant KeptSoFar(paragraphs, i, segments, cfg)
    {
      var paragraph := paragraphs[i];
      ghost var next := StartOf(paragraphs, i + 1, 0, |n|);
      NthParagraph(paragraphs, i, n);
      RangeBounds(paragraph, n, 0, at, next);
      KeptMeans(paragraph, cfg);
      if |paragraph.text| <= cfg.maxChars && CountTokens(paragraph.text) <= cfg.maxTokens {
        KeptIsSized(paragraph.text, cfg);
        CutOne(segments, paragraph, n, 0, at, next, cfg);
        KeptStep(paragraphs, i, segments, [paragraph], cfg);
        segments := segments + [paragraph];
      } else {
        var inner := SplitParagraph(paragraph, cfg);
        CutMany(segments, paragraph, inner, n, 0, at, next, cfg);
        KeptStep(paragraphs, i, segments, inner, cfg);
        segments := segments + inner;
      }
      at := next;
      assert CutUpTo(segments, n, 0, at, cfg);
    }
    StartOfEnd(paragraphs, 0, |n|);
    KeptAll(paragraphs, segments, n, cfg);
  }
}
