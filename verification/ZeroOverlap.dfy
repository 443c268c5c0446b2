/**
  Both overlap limits zero. They do not switch overlap off: every word of a chunk is carried over
  to the next one unless the chunk is single-spaced already.
 */
module ZeroOverlap {
  import opened Wrappers
  import opened Text
  import opened Segments
  import opened Paragraphs
  import opened Splitting
  import opened Overlap
  import opened Packing
  import opened Chunking
  import opened ChunkGuarantees

  predicate NoLimits(cfg: ChunkingConfig) {
    cfg.overlapChars == 0 && cfg.overlapTokens == 0
  }

  predicate SingleSpaced(text: string) {
    Join(Words(text)) == text
  }

  // ---------------------------------------------------------------------------
  // What one chunk hands on
  // ---------------------------------------------------------------------------

  /** With both overlap limits zero everything is carried over, and is dropped only when it is the chunk text itself. */
  lemma DroppedWhen(group: seq<TextSegment>, cfg: ChunkingConfig)
    requires IsGroup(group, cfg) && NoLimits(cfg)
    ensures var text := JoinSegments(group);
            && (Overlapping(group, cfg) == None <==> SingleSpaced(text))
            && (Overlapping(group, cfg).Some? ==> Overlapping(group, cfg).value.text == Join(Words(text)))
  {
    hide IsGroup, JoinSegments, Words, Join;
    var text := JoinSegments(group);
    GroupText(group, cfg);
    GroupNonEmpty(group, cfg);
    EverythingFits(Words(text), 0, cfg);
    WordsSomewhere(text);
    JoinTrimmedWords(Words(text));
    JoinedHasWords(group);
  }

  lemma JoinedHasWords(segs: seq<TextSegment>)
    requires JoinSegments(segs) != ""
    ensures Words(JoinSegments(segs)) != []
  {
    hide Words, Join, StrippedTexts;
    WordsNonEmpty(JoinSegments(segs));
  }

  lemma WordsSomewhere(text: string)
    ensures forall i | 0 <= i < |Words(text)| :: IsWord(Words(text)[i])
    ensures Words(text) == [] ==> Join(Words(text)) == ""
  {
  }

  lemma {:induction false} EverythingFits(ws: seq<string>, k: nat, cfg: ChunkingConfig)
    requires NoLimits(cfg) && k <= |ws|
    ensures CarriedFrom(ws, cfg, k) == |ws| && Suffix(ws, |ws|) == ws
    decreases |ws| - k
  {
    if k < |ws| { EverythingFits(ws, k + 1, cfg); }
  }

  // ---------------------------------------------------------------------------
  // From one chunk to the next
  // ---------------------------------------------------------------------------

  lemma PairText(ov: TextSegment, next: TextSegment, cfg: ChunkingConfig)
    requires Clean(ov) && Clean(next)
    ensures Room([ov, next], cfg) <==> WithinLimits(ov.text + " " + next.text, cfg.maxChars, cfg.maxTokens)
    ensures Room([next], cfg) <==> WithinLimits(next.text, cfg.maxChars, cfg.maxTokens)
  {
    hide JoinSegments, WithinLimits, Clean;
    JoinOneMore([ov], next);
    JoinSegmentsOfOne(ov);
    JoinSegmentsOfOne(next);
    assert [ov] + [next] == [ov, next];
  }

  lemma LongWordFitsNowhere(next: string, before: string, cfg: ChunkingConfig)
    requires LongWord(next, cfg.maxChars)
    ensures !WithinLimits(next, cfg.maxChars, cfg.maxTokens) && !WithinLimits(before + " " + next, cfg.maxChars, cfg.maxTokens)
  {
  }

  /**
    Between a chunk and the next, with both overlap limits zero: either all words of the chunk are
    repeated or none. All are, exactly when the chunk is not single-spaced and the next segment
    either fits behind its single-spaced words or is an over-long word.
   */
  lemma AtBoundary(chunks: seq<Chunk>, doc: SourceDocument, cfg: ChunkingConfig,
                   segments: seq<TextSegment>, groups: seq<seq<TextSegment>>, i: nat)
    requires ChunkedAs(chunks, doc, cfg, segments, groups) && i + 1 < |chunks| && NoLimits(cfg)
    ensures |chunks| == |groups| && Placed(groups, i + 1) < |segments|
    ensures var text, next := chunks[i].text, segments[Placed(groups, i + 1)].text;
            var carried := CarriedByAll(groups)[i + 1];
            && (carried == 0 || carried == |Words(text)|)
            && (carried > 0 <==>
                  && !SingleSpaced(text)
                  && (WithinLimits(Join(Words(text)) + " " + next, cfg.maxChars, cfg.maxTokens) || LongWord(next, cfg.maxChars)))
  {
    hide CutUpTo, WithinLimits, NormalizeText, JoinSegments, After, Words, Join, LongWord, OverlapSegment, SingleSpaced;
    assert ChunkOf(chunks, doc.docId, groups, i) && LinkAt(groups, i, cfg);
    GroupOf(groups, segments, i, cfg);
    GroupOf(groups, segments, i + 1, cfg);
    FirstFreshIsNext(groups, i + 1);
    var group, next := groups[i], segments[Placed(groups, i + 1)];
    GoodToTheEnd(segments, NormalizeText(NormalizeText(doc.text)), cfg);
    NextIsClean(segments, NormalizeText(NormalizeText(doc.text)), cfg, Placed(groups, i + 1));
    DroppedWhen(group, cfg);
    GroupHasWords(group, cfg);
    if Overlapping(group, cfg).Some? {
      var ov := Overlapping(group, cfg).value;
      OverlapFacts(group, cfg);
      SpacedWords(JoinSegments(group));
      PairText(ov, next, cfg);
      if LongWord(next.text, cfg.maxChars) {
        LongWordFitsNowhere(next.text, ov.text, cfg);
      }
    }
  }

  lemma SpacedWords(text: string)
    ensures Words(Join(Words(text))) == Words(text)
  {
    WordsJoinWords(Words(text));
  }

  lemma GroupHasWords(group: seq<TextSegment>, cfg: ChunkingConfig)
    requires IsGroup(group, cfg)
    ensures Words(JoinSegments(group)) != []
  {
    hide Words, JoinSegments;
    GroupText(group, cfg);
    JoinedHasWords(group);
  }

  // ---------------------------------------------------------------------------
  // Documents on which nothing is repeated
  // ---------------------------------------------------------------------------

  lemma {:induction false} SpacedJoin(texts: seq<string>)
    requires forall i | 0 <= i < |texts| :: SingleSpaced(texts[i]) && Words(texts[i]) != []
    ensures SingleSpaced(Join(texts))
  {
    hide Words;
    WordsJoin(texts);
    if |texts| > 1 {
      var n := |texts| - 1;
      var before, last := texts[..n], texts[n];
      SpacedJoin(before);
      WordsJoin(before);
      assert texts == before + [last];
      JoinSnoc(before, last);
      assert WordsOfAll(texts) == WordsOfAll(before) + Words(last);
      ManyWords(before);
      JoinConcat(WordsOfAll(before), Words(last));
    } else if |texts| == 1 {
      assert texts == [texts[0]];
      JoinOne(texts[0]);
    } else {
      assert Join(texts) == "" && WordsOfAll(texts) == [];
    }
  }

  lemma ManyWords(texts: seq<string>)
    requires texts != [] && Words(texts[|texts| - 1]) != []
    ensures WordsOfAll(texts) != []
  {
    hide Words;
  }

  lemma CleanHasWords(seg: TextSegment)
    requires Clean(seg)
    ensures Words(seg.text) != []
  {
    WordsNonEmpty(seg.text);
  }

  /** If every segment but the last is single-spaced, no chunk repeats a word. */
  lemma NothingRepeated(chunks: seq<Chunk>, doc: SourceDocument, cfg: ChunkingConfig,
                        segments: seq<TextSegment>, groups: seq<seq<TextSegment>>, i: nat)
    requires ChunkedAs(chunks, doc, cfg, segments, groups) && i < |chunks| && NoLimits(cfg)
    requires forall j | 0 <= j < |segments| - 1 :: SingleSpaced(segments[j].text)
    ensures |chunks| == |groups| && CarriedByAll(groups)[i] == 0
  {
    hide CutUpTo, NormalizeText, JoinSegments, Words, LinkAt, SingleSpaced, ChunksOf, IsGroup;
    ChunksLength(chunks, doc.docId, groups);
    if i == 0 {
      PackEnds(groups, segments, cfg);
    } else {
      AtBoundary(chunks, doc, cfg, segments, groups, i - 1);
      assert ChunkOf(chunks, doc.docId, groups, i - 1);
      GroupOf(groups, segments, i - 1, cfg);
      GroupIsSpaced(groups, segments, i - 1, cfg);
    }
  }

  lemma GroupIsSpaced(groups: seq<seq<TextSegment>>, segments: seq<TextSegment>, i: nat, cfg: ChunkingConfig)
    requires Packs(groups, segments, cfg) && i + 1 < |groups|
    requires forall j | 0 <= j < |segments| - 1 :: SingleSpaced(segments[j].text)
    ensures SingleSpaced(JoinSegments(groups[i]))
  {
    hide JoinSegments, Words, SingleSpaced, Sized, Join, Trimmed, InOrder;
    var group := groups[i];
    GroupOf(groups, segments, i, cfg);
    JoinSegmentsOfClean(group);
    assert AllClean(group);
    forall k | 0 <= k < |group|
      ensures SingleSpaced(group[k].text) && Words(group[k].text) != []
    {
      assert Clean(group[k]);
      CleanHasWords(group[k]);
      MemberIsSpaced(groups, segments, i, k, cfg);
    }
    SpacedJoin(Texts(group));
  }

  lemma MemberIsSpaced(groups: seq<seq<TextSegment>>, segments: seq<TextSegment>, i: nat, k: nat, cfg: ChunkingConfig)
    requires Packs(groups, segments, cfg) && i + 1 < |groups| && k < |groups[i]|
    requires forall j | 0 <= j < |segments| - 1 :: SingleSpaced(segments[j].text)
    ensures SingleSpaced(groups[i][k].text)
  {
    hide JoinSegments, Words, SingleSpaced, Sized, Join, Trimmed, InOrder, LinkAt, Packs, IsGroup;
    var group := groups[i];
    if k == 0 && group[0].overlap {
      CarriedFromPrevious(groups, segments, i, cfg);
      OverlapIsSpaced(JoinSegments(groups[i - 1]), cfg);
    } else {
      var f := if group[0].overlap then k - 1 else k;
      assert Fresh(group)[f] == group[k];
      PackHolds(groups, segments, cfg);
      FreshIsPlaced(groups, i, f);
      NotTheLast(groups, segments, i, f, cfg);
    }
  }

  /** A fresh segment of any group but the last is not the last segment. */
  lemma NotTheLast(groups: seq<seq<TextSegment>>, segments: seq<TextSegment>, i: nat, f: nat, cfg: ChunkingConfig)
    requires Packs(groups, segments, cfg) && i + 1 < |groups| && f < |Fresh(groups[i])|
    ensures Placed(groups, i) + f < |segments| - 1
  {
    hide Fresh, LinkAt, IsGroup;
    var n := |groups| - 1;
    FreshAllConcat(groups[..i + 1], groups[i + 1..]);
    assert groups == groups[..i + 1] + groups[i + 1..] && groups[..i + 1] == groups[..i] + [groups[i]];
    FreshAllSnoc(groups[..i], groups[i]);
    FreshAllConcat(groups[i + 1..n], [groups[n]]);
    assert groups[i + 1..] == groups[i + 1..n] + [groups[n]];
    FreshAllSnoc([], groups[n]);
    assert [] + [groups[n]] == [groups[n]];
  }

  lemma OverlapIsSpaced(text: string, cfg: ChunkingConfig)
    ensures SingleSpaced(OverlapOf(text, cfg))
  {
    WordsOfOverlap(text, cfg);
  }

  // ---------------------------------------------------------------------------
  // Paragraphs are determined by the text
  // ---------------------------------------------------------------------------

  /** A division whose last paragraph starts later puts a blank line behind any earlier start. */
  lemma BlankBehind(n: string, rest: seq<TextSegment>, a: nat, b: nat, end: nat)
    requires a < b <= end <= |n| && !IsSpace(n[a])
    requires Tiles(rest, n, 0, 0, b) && (rest != [] ==> BlankLineIn(n, rest[|rest| - 1].end, b))
    ensures BlankLineIn(n, a, end)
  {
    if rest != [] {
      var from := rest[|rest| - 1].end;
      assert Gap(n, from, b);
      var i, j :| from <= i < j <= b && BlankLineAt(n, i, j);
      assert a <= i < j <= end;
    }
  }

  /** What the last paragraph of a division is like. */
  ghost predicate IsLast(n: string, hi: nat, rest: seq<TextSegment>, last: TextSegment) {
    && hi <= |n| && 0 <= last.start < last.end <= hi && Exact(last, n, 0)
    && !IsSpace(n[last.start]) && !IsSpace(n[last.end - 1])
    && Gap(n, last.end, hi) && !BlankLineIn(n, last.start, last.end)
    && Tiles(rest, n, 0, 0, last.start) && AreParagraphs(rest, n)
    && (rest != [] ==> BlankLineIn(n, rest[|rest| - 1].end, last.start))
  }

  lemma LastIs(n: string, hi: nat, ps: seq<TextSegment>)
    requires hi <= |n| && Tiles(ps, n, 0, 0, hi) && AreParagraphs(ps, n) && ps != []
    ensures IsLast(n, hi, ps[..|ps| - 1], ps[|ps| - 1])
  {
    hide IsSpace, BlankLineIn;
    var last := ps[|ps| - 1];
    assert last.text[0] == n[last.start] && last.text[|last.text| - 1] == n[last.end - 1];
  }

  lemma SameLast(n: string, hi: nat, rest: seq<TextSegment>, a: TextSegment, rest': seq<TextSegment>, b: TextSegment)
    requires IsLast(n, hi, rest, a) && IsLast(n, hi, rest', b)
    ensures a == b
  {
    hide IsSpace, BlankLineIn;
    assert a.end == b.end;
    if a.start < b.start {
      BlankBehind(n, rest', a.start, b.start, a.end);
    } else if b.start < a.start {
      BlankBehind(n, rest, b.start, a.start, b.end);
    }
  }

  /** A text has one division into paragraphs. */
  lemma {:induction false} OneDivision(n: string, hi: nat, ps: seq<TextSegment>, qs: seq<TextSegment>)
    requires hi <= |n| && Tiles(ps, n, 0, 0, hi) && Tiles(qs, n, 0, 0, hi) && AreParagraphs(ps, n) && AreParagraphs(qs, n)
    ensures ps == qs
    decreases |ps|
  {
    hide IsSpace, BlankLineIn, Tiles, AreParagraphs, Exact;
    NoneInGap(n, hi, ps);
    NoneInGap(n, hi, qs);
    if ps != [] {
      var p, q, ps', qs' := ps[|ps| - 1], qs[|qs| - 1], ps[..|ps| - 1], qs[..|qs| - 1];
      LastIs(n, hi, ps);
      LastIs(n, hi, qs);
      SameLast(n, hi, ps', p, qs', q);
      OneDivision(n, p.start, ps', qs');
      assert ps == ps' + [p] && qs == qs' + [q];
    }
  }

  lemma NoneInGap(n: string, hi: nat, ps: seq<TextSegment>)
    requires hi <= |n| && Tiles(ps, n, 0, 0, hi) && AreParagraphs(ps, n)
    ensures ps == [] <==> Gap(n, 0, hi)
  {
    if ps != [] {
      var last := ps[|ps| - 1];
      assert last.text[0] == n[last.start];
    }
  }

  // ---------------------------------------------------------------------------
  // Documents on which everything is repeated
  // ---------------------------------------------------------------------------

  /** Some white space between its words is longer than one character. */
  predicate Loose(text: string) {
    |Join(Words(text))| < |text|
  }

  /** Limits that hold the paragraphs up to `j`, and one character too few for the next one; no limit on overlap. */
  function TightConfig(paragraphs: seq<TextSegment>, j: nat, doc: SourceDocument): ChunkingConfig
    requires j + 1 < |paragraphs|
  {
    ChunkingConfig(|Join(Texts(paragraphs[..j + 1]))| + |paragraphs[j + 1].text|, |Words(doc.text)|, 0, 0)
  }

  lemma {:induction false} FewerWords(texts: seq<string>, m: nat)
    requires m <= |texts|
    ensures |WordsOfAll(texts[..m])| <= |WordsOfAll(texts)|
    ensures forall k | 0 <= k < m :: |Words(texts[k])| <= |WordsOfAll(texts)|
    decreases |texts|
  {
    hide Words;
    if m < |texts| {
      assert texts[..|texts| - 1][..m] == texts[..m];
      FewerWords(texts[..|texts| - 1], m);
    } else {
      assert texts[..m] == texts;
      if m > 0 {
        FewerWords(texts[..m - 1], m - 1);
      }
    }
  }

  lemma {:induction false} LooseJoin(texts: seq<string>, k: nat)
    requires k < |texts| && Loose(texts[k])
    requires forall i | 0 <= i < |texts| :: Words(texts[i]) != []
    ensures |Join(WordsOfAll(texts))| < |Join(texts)|
    decreases |texts|
  {
    hide Words;
    var n := |texts| - 1;
    var before, last := texts[..n], texts[n];
    assert texts == before + [last] && WordsOfAll(texts) == WordsOfAll(before) + Words(last);
    if n == 0 {
      JoinOne(last);
      assert texts == [last] && WordsOfAll(before) == [] && WordsOfAll(before) + Words(last) == Words(last);
    } else {
      JoinSnoc(before, last);
      ManyWords(before);
      JoinConcat(WordsOfAll(before), Words(last));
      JoinWordsShorter(last);
      WordsJoin(before);
      JoinWordsShorter(Join(before));
      if k < n {
        LooseJoin(before, k);
      }
    }
  }

  lemma {:induction false} ParagraphStands(segs: seq<TextSegment>, n: string, hi: nat, i: nat)
    requires hi <= |n| && Tiles(segs, n, 0, 0, hi) && AreParagraphs(segs, n) && i < |segs|
    ensures StandsFor(segs[i], n, 0) && Words(segs[i].text) != []
    decreases |segs|
  {
    hide IsSpace, BlankLineIn, Words;
    var k := |segs| - 1;
    if i < k {
      ParagraphStands(segs[..k], n, segs[k].start, i);
    } else {
      CleanHasWords(segs[k]);
    }
  }

  /** The words of the first paragraphs are no more than those of the document. */
  lemma ParagraphWords(paragraphs: seq<TextSegment>, doc: SourceDocument, m: nat)
    requires var n := NormalizeText(NormalizeText(doc.text));
             Tiles(paragraphs, n, 0, 0, |n|) && AreParagraphs(paragraphs, n)
    requires m <= |paragraphs|
    ensures |WordsOfAll(Texts(paragraphs[..m]))| <= |Words(doc.text)|
    ensures forall k | 0 <= k < |paragraphs| :: 0 < |Words(paragraphs[k].text)| <= |Words(doc.text)|
  {
    hide NormalizeText, Words, Tiles, AreParagraphs, StandsFor;
    var n := NormalizeText(NormalizeText(doc.text));
    forall i | 0 <= i < |paragraphs|
      ensures StandsFor(paragraphs[i], n, 0) && Words(paragraphs[i].text) != []
    {
      ParagraphStands(paragraphs, n, |n|, i);
    }
    TilesKeepWords(paragraphs, n, 0, 0, |n|);
    assert n[0..|n|] == n;
    NormalizeTwiceKeepsWords(doc.text);
    FewerWords(Texts(paragraphs), m);
    FewerWords(Texts(paragraphs), |paragraphs|);
    assert Texts(paragraphs)[..m] == Texts(paragraphs[..m]);
    forall k | 0 <= k < |paragraphs|
      ensures 0 < |Words(paragraphs[k].text)| <= |Words(doc.text)|
    {
      assert Texts(paragraphs)[k] == paragraphs[k].text;
    }
  }

  lemma JoinPrefix(texts: seq<string>, m: nat, k: nat)
    requires 0 < m <= k <= |texts|
    ensures |Join(texts[..m])| <= |Join(texts[..k])|
  {
    JoinSubrange(texts[..k], 0, m);
    assert texts[..k][0..m] == texts[..m];
  }

  lemma JoinMember(texts: seq<string>, k: nat)
    requires k < |texts|
    ensures |texts[k]| <= |Join(texts)|
  {
    JoinSubrange(texts, k, k + 1);
    assert texts[k..k + 1] == [texts[k]];
    JoinOne(texts[k]);
  }

  lemma JoinOfPrefix(texts: seq<string>, m: nat)
    requires 0 < m < |texts|
    ensures Join(texts[..m + 1]) == Join(texts[..m]) + " " + texts[m]
  {
    assert texts[..m + 1] == texts[..m] + [texts[m]];
    JoinSnoc(texts[..m], texts[m]);
  }

  /** The first paragraphs, up to the one that does not fit any more, are the first segments. */
  lemma FirstSegments(doc: SourceDocument, cfg: ChunkingConfig, segments: seq<TextSegment>, paragraphs: seq<TextSegment>, j: nat)
    requires WholeParagraphs(doc, cfg, segments)
    requires var n := NormalizeText(NormalizeText(doc.text));
             Tiles(paragraphs, n, 0, 0, |n|) && AreParagraphs(paragraphs, n)
    requires j + 1 < |paragraphs| && cfg == TightConfig(paragraphs, j, doc)
    ensures paragraphs[..j + 2] <= segments
  {
    var n := NormalizeText(NormalizeText(doc.text));
    hide NormalizeText, Words, Tiles, AreParagraphs, Join, BlankLineIn;
    var ps :| KeepsWhole(ps, segments, n, cfg);
    OneDivision(n, |n|, ps, paragraphs);
    ParagraphWords(paragraphs, doc, 0);
    var head, texts := paragraphs[..j + 2], Texts(paragraphs[..j + 1]);
    forall k | 0 <= k < |head|
      ensures Kept(head[k], cfg)
    {
      if k <= j {
        assert texts[k] == head[k].text;
        JoinMember(texts, k);
      }
    }
    assert AllKept(head, cfg);
  }

  /** The first chunk is a prefix of the segments, and if they are not all in it there is a second chunk. */
  lemma FirstChunk(chunks: seq<Chunk>, doc: SourceDocument, cfg: ChunkingConfig,
                   segments: seq<TextSegment>, groups: seq<seq<TextSegment>>) returns (m: nat)
    requires ChunkedAs(chunks, doc, cfg, segments, groups) && segments != []
    ensures |chunks| == |groups| > 0 && 0 < m <= |segments|
    ensures chunks[0].text == Join(Texts(segments[..m]))
    ensures m < |segments| ==> |chunks| > 1 && Placed(groups, 1) == m
  {
    hide CutUpTo, NormalizeText, LinkAt, Words, Join, JoinSegments, Sized, InOrder, FreshAll;
    ChunksLength(chunks, doc.docId, groups);
    PackHolds(groups, segments, cfg);
    NoGroupsNoSegments(groups);
    FirstIsFresh(chunks, doc, cfg, segments, groups);
    GroupOf(groups, segments, 0, cfg);
    m := |groups[0]|;
    FreshFirst(groups);
    assert groups[0] == segments[..m];
    JoinSegmentsOfClean(groups[0]);
    assert ChunkOf(chunks, doc.docId, groups, 0);
  }

  lemma NoGroupsNoSegments(groups: seq<seq<TextSegment>>)
    ensures groups == [] ==> FreshAll(groups) == []
  {
  }

  lemma FreshFirst(groups: seq<seq<TextSegment>>)
    requires groups != []
    ensures Fresh(groups[0]) <= FreshAll(groups)
    ensures |groups| == 1 ==> Fresh(groups[0]) == FreshAll(groups)
    ensures |groups| > 1 ==> Placed(groups, 1) == |Fresh(groups[0])|
  {
    hide Fresh;
    assert groups == [groups[0]] + groups[1..];
    FreshAllConcat([groups[0]], groups[1..]);
    FreshAllSnoc([], groups[0]);
    assert [] + [groups[0]] == [groups[0]] && groups[..1] == [groups[0]];
  }

  /** A joined text of two or more texts is not one word. */
  lemma TwoWords(texts: seq<string>, m: nat)
    requires 2 <= m <= |texts| && forall i | 0 <= i < |texts| :: Words(texts[i]) != []
    ensures !IsWord(Join(texts[..m]))
  {
    hide Words;
    var some := texts[..m];
    var before, last := some[..m - 1], some[m - 1];
    WordsJoin(some);
    assert WordsOfAll(some) == WordsOfAll(before) + Words(last);
    ManyWords(before);
    assert last == texts[m - 1] && |WordsOfAll(some)| >= 2;
    if IsWord(Join(some)) {
      WordsOfWord(Join(some));
    }
  }

  /** The first chunk holds exactly the paragraphs that fit. */
  lemma FirstChunkIs(chunks: seq<Chunk>, doc: SourceDocument, cfg: ChunkingConfig, segments: seq<TextSegment>,
                     groups: seq<seq<TextSegment>>, paragraphs: seq<TextSegment>, j: nat)
    requires ChunkedAs(chunks, doc, cfg, segments, groups) && WholeParagraphs(doc, cfg, segments)
    requires var n := NormalizeText(NormalizeText(doc.text));
             Tiles(paragraphs, n, 0, 0, |n|) && AreParagraphs(paragraphs, n)
    requires j + 1 < |paragraphs| && cfg == TightConfig(paragraphs, j, doc)
    ensures |chunks| == |groups| > 1 && Placed(groups, 1) == j + 1 < |segments|
    ensures chunks[0].text == Join(Texts(paragraphs[..j + 1])) && segments[j + 1] == paragraphs[j + 1]
  {
    hide *;
    FirstSegments(doc, cfg, segments, paragraphs, j);
    var m := FirstChunk(chunks, doc, cfg, segments, groups);
    var head := Texts(paragraphs[..j + 2]);
    HeadTexts(paragraphs, segments, j);
    assert head[..j + 2] == head;
    JoinOfPrefix(head, j + 1);
    TightLimits(paragraphs, j, doc, cfg);
    Sizes(chunks, doc, cfg, segments, groups, 0);
    if m >= j + 2 {
      SegmentsHaveWords(chunks, doc, cfg, segments, groups, m);
      HeadIsFirst(paragraphs, segments, j, m);
      TooMany(Texts(segments[..m]), head, cfg);
    }
    if m <= j {
      ParagraphWords(paragraphs, doc, m + 1);
      Fullness(chunks, doc, cfg, segments, groups, 0);
      StillRoom(head, m, cfg, |Words(doc.text)|);
    }
  }

  lemma TightLimits(paragraphs: seq<TextSegment>, j: nat, doc: SourceDocument, cfg: ChunkingConfig)
    requires j + 1 < |paragraphs| && cfg == TightConfig(paragraphs, j, doc)
    ensures cfg.maxChars == |Join(Texts(paragraphs[..j + 1]))| + |paragraphs[j + 1].text| && cfg.maxTokens == |Words(doc.text)|
  {
  }

  lemma HeadTexts(paragraphs: seq<TextSegment>, segments: seq<TextSegment>, j: nat)
    requires j + 1 < |paragraphs| && paragraphs[..j + 2] <= segments
    ensures var head := Texts(paragraphs[..j + 2]);
            && |head| == j + 2 && segments[j + 1] == paragraphs[j + 1]
            && (forall k | 0 <= k < j + 2 :: head[k] == paragraphs[k].text == segments[k].text)
            && (forall k | 0 < k <= j + 2 :: head[..k] == Texts(segments[..k]) == Texts(paragraphs[..k]))
  {
    assert paragraphs[..j + 2] == segments[..j + 2];
  }

  lemma HeadIsFirst(paragraphs: seq<TextSegment>, segments: seq<TextSegment>, j: nat, m: nat)
    requires j + 1 < |paragraphs| && paragraphs[..j + 2] <= segments && j + 2 <= m <= |segments|
    ensures Texts(paragraphs[..j + 2]) <= Texts(segments[..m])
  {
    assert paragraphs[..j + 2] == segments[..m][..j + 2];
  }

  lemma TooMany(long: seq<string>, head: seq<string>, cfg: ChunkingConfig)
    requires 2 <= |head| && head <= long && forall i | 0 <= i < |long| :: Words(long[i]) != []
    requires |Join(head)| > cfg.maxChars
    ensures !Sized(Join(long), cfg)
  {
    assert long[..|long|] == long;
    hide *;
    TwoWords(long, |long|);
    LongerJoin(long, head);
    NotSized(Join(long), cfg);
  }

  lemma LongerJoin(long: seq<string>, head: seq<string>)
    requires head != [] && head <= long
    ensures |Join(head)| <= |Join(long)|
  {
    JoinSubrange(long, 0, |head|);
    assert long[0..|head|] == head;
  }

  lemma NotSized(text: string, cfg: ChunkingConfig)
    requires |text| > cfg.maxChars && !IsWord(text)
    ensures !Sized(text, cfg)
  {
  }

  lemma StillRoom(head: seq<string>, m: nat, cfg: ChunkingConfig, all: nat)
    requires 0 < m < |head| - 1 && |WordsOfAll(head[..m + 1])| <= all == cfg.maxTokens
    requires cfg.maxChars == |Join(head[..|head| - 1])| + |head[|head| - 1]|
    ensures WithinLimits(Join(head[..m]) + " " + head[m], cfg.maxChars, cfg.maxTokens)
  {
    hide Words, Join;
    JoinOfPrefix(head, m);
    JoinPrefix(head, m + 1, |head| - 1);
    WordsJoin(head[..m + 1]);
  }

  lemma SegmentsHaveWords(chunks: seq<Chunk>, doc: SourceDocument, cfg: ChunkingConfig,
                          segments: seq<TextSegment>, groups: seq<seq<TextSegment>>, m: nat)
    requires ChunkedAs(chunks, doc, cfg, segments, groups) && m <= |segments|
    ensures forall i | 0 <= i < m :: Words(Texts(segments[..m])[i]) != []
  {
    hide NormalizeText, Words, Packs, ChunksOf, Tiles;
    var n := NormalizeText(NormalizeText(doc.text));
    GoodToTheEnd(segments, n, cfg);
    forall i | 0 <= i < m
      ensures Words(Texts(segments[..m])[i]) != []
    {
      NextIsClean(segments, n, cfg, i);
      CleanHasWords(segments[i]);
    }
  }

  /**
    For every document with a paragraph, other than the last, in which words stand more than one
    character apart, there are limits, with both overlap limits zero, under which the second chunk
    starts by repeating every word of the first.
   */
  lemma EverythingRepeated(chunks: seq<Chunk>, doc: SourceDocument, cfg: ChunkingConfig, segments: seq<TextSegment>,
                           groups: seq<seq<TextSegment>>, paragraphs: seq<TextSegment>, j: nat)
    requires ChunkedAs(chunks, doc, cfg, segments, groups) && WholeParagraphs(doc, cfg, segments)
    requires var n := NormalizeText(NormalizeText(doc.text));
             Tiles(paragraphs, n, 0, 0, |n|) && AreParagraphs(paragraphs, n)
    requires j + 1 < |paragraphs| && Loose(paragraphs[j].text) && cfg == TightConfig(paragraphs, j, doc)
    ensures ValidConfig(cfg) && NoLimits(cfg)
    ensures |chunks| > 1 && Words(chunks[0].text) != [] && Words(chunks[0].text) <= Words(chunks[1].text)
  {
    hide ChunkedAs, NormalizeText, Words, Tiles, AreParagraphs, Join;
    FirstChunkIs(chunks, doc, cfg, segments, groups, paragraphs, j);
    ParagraphWords(paragraphs, doc, j + 2);
    var texts, next := Texts(paragraphs[..j + 1]), paragraphs[j + 1].text;
    assert texts[j] == paragraphs[j].text;
    assert forall i | 0 <= i < |texts| :: Words(texts[i]) != [] by {
      assert forall i | 0 <= i < |texts| :: texts[i] == paragraphs[i].text;
    }
    LooseJoin(texts, j);
    WordsJoin(texts);
    TightText(texts, next, Words(doc.text), cfg) by {
      assert Texts(paragraphs[..j + 2]) == texts + [next];
      WordsOfAllConcat(texts, [next]);
    }
    AtBoundary(chunks, doc, cfg, segments, groups, 0);
    ChunksHoldCarry(chunks, doc, cfg, segments, groups);
  }

  /** The single-spaced words of the first chunk and the next paragraph fit. */
  lemma TightText(texts: seq<string>, next: string, all: seq<string>, cfg: ChunkingConfig)
    requires texts != [] && Words(texts[|texts| - 1]) != [] && |Join(WordsOfAll(texts))| < |Join(texts)|
    requires |WordsOfAll(texts + [next])| <= |all|
    requires cfg.maxChars == |Join(texts)| + |next| && cfg.maxTokens == |all|
    ensures WithinLimits(Join(Words(Join(texts))) + " " + next, cfg.maxChars, cfg.maxTokens)
  {
    hide Words, Join;
    WordsJoin(texts);
    var spaced := Join(WordsOfAll(texts));
    JoinOne(spaced);
    JoinSnoc([spaced], next);
    WordsJoin([spaced] + [next]);
    assert ([spaced] + [next])[..1] == [spaced] && [spaced][..0] == [];
    assert WordsOfAll([spaced] + [next]) == WordsOfAll([spaced]) + Words(next);
    assert WordsOfAll([spaced]) == Words(spaced);
    SpacedWords(Join(texts));
    assert (texts + [next])[..|texts|] == texts;
  }

  lemma ChunksHoldCarry(chunks: seq<Chunk>, doc: SourceDocument, cfg: ChunkingConfig,
                        segments: seq<TextSegment>, groups: seq<seq<TextSegment>>)
    requires ChunkedAs(chunks, doc, cfg, segments, groups) && |chunks| > 1
    ensures |groups| == |chunks|
    ensures CarriedByAll(groups)[1] == |Words(chunks[0].text)| ==> Words(chunks[0].text) <= Words(chunks[1].text)
  {
    hide Words, CutUpTo, IsGroup, LinkAt, ChunksOf, NormalizeText;
    ChunksLength(chunks, doc.docId, groups);
    CarryHolds(chunks, doc.docId, groups, segments, 1, cfg);
    assert CarryAt(chunks, CarriedByAll(groups), 1);
  }

  // ---------------------------------------------------------------------------
  // One such document
  // ---------------------------------------------------------------------------

  lemma AlreadyNormal(s: string)
    requires '\r' !in s && Trimmed(s)
    ensures NormalizeText(s) == s
  {
    assert forall i :: !PairAt(s, i);
    NothingReplaced(s);
    StripTrimmed(s);
  }

  lemma WordBehind(s: string, lo: nat)
    requires lo < |s| && Gap(s, 0, lo) && IsWord(s[lo..])
    ensures Words(s) == [s[lo..]]
  {
    hide Words, IsWord;
    assert s[lo..|s|] == s[lo..];
    WordsPadded(s, lo, |s|);
    WordsOfWord(s[lo..]);
  }

  lemma ExampleWords()
    ensures Words("a  b") == ["a", "b"] && |Words("a  b\n\nc")| == 3
    ensures Loose("a  b")
  {
    assert "  b"[2..] == "b" && "\n\nc"[2..] == "c";
    assert "a" + "  b" == "a  b" && "a  b" + "\n\nc" == "a  b\n\nc";
    assert ["a"] + ["b"] == ["a", "b"];
    hide Words, Join;
    WordsOfWord("a");
    WordBehind("  b", 2);
    WordBehind("\n\nc", 2);
    WordsConcat("a", "  b");
    WordsConcat("a  b", "\n\nc");
    JoinOne("a");
    JoinSnoc(["a"], "b");
    assert Words("a  b") == ["a"] + ["b"] && Join(["a"] + ["b"]) == "a" + " " + "b";
    assert |Words("a  b" + "\n\nc")| == |Words("a  b")| + 1;
  }

  lemma ExampleParagraphs(n: string, first: TextSegment, second: TextSegment)
    requires n == "a  b\n\nc" && first == TextSegment("a  b", 0, 4, false) && second == TextSegment("c", 6, 7, false)
    ensures Tiles([first, second], n, 0, 0, |n|) && AreParagraphs([first, second], n)
  {
    assert n[0..4] == "a  b" && n[6..7] == "c";
    assert [first, second][..1] == [first] && [first][..0] == [];
    assert BlankLineAt(n, 4, 6);
    assert BlankLineIn(n, 4, 6);
    assert !BlankLineIn(n, 0, 4) && !BlankLineIn(n, 6, 7);
    assert Tiles([first], n, 0, 0, 6);
    assert AreParagraphs([first], n);
  }

  /** The document `a  b`, blank line, `c` in chunks of five characters without any overlap: the second chunk repeats the first. */
  lemma RepeatingDocument(chunks: seq<Chunk>, segments: seq<TextSegment>, groups: seq<seq<TextSegment>>)
    requires var doc, cfg := SourceDocument("doc", "a  b\n\nc"), ChunkingConfig(5, 3, 0, 0);
             ChunkedAs(chunks, doc, cfg, segments, groups) && WholeParagraphs(doc, cfg, segments)
    ensures ValidConfig(ChunkingConfig(5, 3, 0, 0))
    ensures |chunks| > 1 && chunks[0].text == "a  b" && ["a", "b"] <= Words(chunks[1].text)
  {
    hide ChunkedAs, WholeParagraphs, NormalizeText, Words, Tiles, AreParagraphs, Join, Loose;
    var n := "a  b\n\nc";
    var doc, cfg := SourceDocument("doc", n), ChunkingConfig(5, 3, 0, 0);
    var first, second := TextSegment("a  b", 0, 4, false), TextSegment("c", 6, 7, false);
    var paragraphs := [first, second];
    AlreadyNormal(n);
    ExampleWords();
    ExampleParagraphs(n, first, second);
    assert paragraphs[..1] == [first] && Texts([first]) == ["a  b"];
    JoinOne("a  b");
    assert cfg == TightConfig(paragraphs, 0, doc);
    FirstChunkIs(chunks, doc, cfg, segments, groups, paragraphs, 0);
    EverythingRepeated(chunks, doc, cfg, segments, groups, paragraphs, 0);
  }
}
