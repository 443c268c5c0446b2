/** What a reader of the chunks can rely on, for every document and every valid configuration. */
module ChunkGuarantees {
  import opened Text
  import opened Segments
  import opened Splitting
  import opened Overlap
  import opened Packing
  import opened Chunking
  import opened Wrappers

  // ---------------------------------------------------------------------------
  // Coverage
  // ---------------------------------------------------------------------------

  /** The first `carried[i]` words of chunk `i` repeat the last words of the chunk before it. */
  ghost predicate CarryAt(chunks: seq<Chunk>, carried: seq<nat>, i: int) {
    && 0 <= i < |chunks| == |carried| && carried[i] <= |Words(chunks[i].text)|
    && if i == 0 then carried[0] == 0
       else
         var before := Words(chunks[i - 1].text);
         carried[i] <= |before| && Words(chunks[i].text)[..carried[i]] == Suffix(before, carried[i])
  }

  /** The words of the chunks without the carried ones. */
  ghost function FreshWords(chunks: seq<Chunk>, carried: seq<nat>): seq<string>
    requires |chunks| == |carried|
  {
    if chunks == [] then []
    else
      var k := |chunks| - 1;
      var ws := Words(chunks[k].text);
      FreshWords(chunks[..k], carried[..k]) + (if carried[k] <= |ws| then ws[carried[k]..] else [])
  }

  /** Nothing lost, invented or reordered. */
  ghost predicate CoversInOrder(chunks: seq<Chunk>, carried: seq<nat>, words: seq<string>) {
    && |carried| == |chunks|
    && (forall i | 0 <= i < |chunks| :: CarryAt(chunks, carried, i))
    && FreshWords(chunks, carried) == words
  }

  ghost function CarriedBy(group: seq<TextSegment>): nat {
    if group != [] && group[0].overlap then |Words(group[0].text)| else 0
  }

  ghost function CarriedByAll(groups: seq<seq<TextSegment>>): (r: seq<nat>)
    ensures |r| == |groups| && forall i | 0 <= i < |groups| :: r[i] == CarriedBy(groups[i])
  {
    seq(|groups|, i requires 0 <= i < |groups| => CarriedBy(groups[i]))
  }

  /** A chunk's words: those of its overlap, then those of its fresh segments. */
  lemma GroupWords(group: seq<TextSegment>, cfg: ChunkingConfig)
    requires IsGroup(group, cfg)
    ensures var ws := Words(JoinSegments(group));
            && CarriedBy(group) <= |ws|
            && ws[CarriedBy(group)..] == WordsOfAll(Texts(Fresh(group)))
            && (group[0].overlap ==> ws[..CarriedBy(group)] == Words(group[0].text))
  {
    hide Words, JoinSegments, IsGroup;
    GroupText(group, cfg);
    GroupNonEmpty(group, cfg);
    if group[0].overlap {
      var head := [group[0].text];
      assert Texts(group) == head + Texts(group[1..]);
      WordsOfAllConcat(head, Texts(group[1..]));
      assert head[..0] == [] && WordsOfAll(head) == [] + Words(group[0].text);
    }
  }

  lemma GroupNonEmpty(group: seq<TextSegment>, cfg: ChunkingConfig)
    requires IsGroup(group, cfg)
    ensures group != []
  {
  }

  /** A group that starts with an overlap got it from the group before. */
  lemma CarriedFromPrevious(groups: seq<seq<TextSegment>>, segs: seq<TextSegment>, i: nat, cfg: ChunkingConfig)
    requires Packs(groups, segs, cfg) && i < |groups|
    ensures groups[i] != []
    ensures groups[i][0].overlap ==>
              && i > 0 && groups[i - 1] != []
              && Overlapping(groups[i - 1], cfg) == Some(groups[i][0])
              && groups[i][0].text == OverlapOf(JoinSegments(groups[i - 1]), cfg)
  {
    hide Room, OverlapOf, JoinSegments, Sized, AllClean, InOrder, Packs;
    GroupOf(groups, segs, i, cfg);
    PackEnds(groups, segs, cfg);
    if groups[i][0].overlap {
      GroupOf(groups, segs, i - 1, cfg);
      PackLink(groups, segs, i - 1, cfg);
      FirstFreshIsFresh(groups, segs, i, cfg);
    }
  }

  lemma PackEnds(groups: seq<seq<TextSegment>>, segs: seq<TextSegment>, cfg: ChunkingConfig)
    requires Packs(groups, segs, cfg) && groups != []
    ensures groups[0] != [] && !groups[0][0].overlap && Fresh(groups[|groups| - 1]) != []
  {
  }

  lemma PackLink(groups: seq<seq<TextSegment>>, segs: seq<TextSegment>, i: nat, cfg: ChunkingConfig)
    requires Packs(groups, segs, cfg) && i + 1 < |groups|
    ensures LinkAt(groups, i, cfg)
  {
  }

  lemma {:induction false} FirstFreshIsFresh(groups: seq<seq<TextSegment>>, segs: seq<TextSegment>, i: nat, cfg: ChunkingConfig)
    requires Packs(groups, segs, cfg) && FirstFresh(groups, i).Some?
    ensures !FirstFresh(groups, i).value.overlap
    decreases |groups| - i
  {
    hide JoinSegments, Sized, AllClean, InOrder, LinkAt;
    GroupOf(groups, segs, i, cfg);
    if Fresh(groups[i]) == [] { FirstFreshIsFresh(groups, segs, i + 1, cfg); }
  }

  lemma CarryHolds(chunks: seq<Chunk>, docId: string, groups: seq<seq<TextSegment>>, segs: seq<TextSegment>, i: nat, cfg: ChunkingConfig)
    requires Packs(groups, segs, cfg) && ChunksOf(chunks, docId, groups) && i < |chunks|
    ensures CarryAt(chunks, CarriedByAll(groups), i)
  {
    hide Packs, JoinSegments, Words, OverlapOf, IsGroup, Carried;
    assert ChunkOf(chunks, docId, groups, i);
    GroupOf(groups, segs, i, cfg);
    GroupWords(groups[i], cfg);
    CarriedFromPrevious(groups, segs, i, cfg);
    if groups[i][0].overlap {
      assert ChunkOf(chunks, docId, groups, i - 1);
      OverlapWords(JoinSegments(groups[i - 1]), cfg);
    }
  }

  lemma OverlapWords(text: string, cfg: ChunkingConfig)
    ensures var ws, k := Words(text), |Words(OverlapOf(text, cfg))|;
            k <= |ws| && Words(OverlapOf(text, cfg)) == Suffix(ws, k)
  {
    hide OverlapOf, Words;
    WordsOfOverlap(text, cfg);
  }

  lemma {:induction false} FreshWordsAre(chunks: seq<Chunk>, docId: string, groups: seq<seq<TextSegment>>, cfg: ChunkingConfig)
    requires ChunksOf(chunks, docId, groups)
    requires forall i | 0 <= i < |groups| :: IsGroup(groups[i], cfg)
    ensures FreshWords(chunks, CarriedByAll(groups)) == WordsOfAll(Texts(FreshAll(groups)))
    decreases |groups|
  {
    hide JoinSegments, Words, IsGroup, Fresh, CarriedBy, WordsOfAll, ChunksOf, MinStart, MaxEnd;
    ChunksLength(chunks, docId, groups);
    if groups == [] {
      NoTexts();
    } else {
      var k := |groups| - 1;
      var gs, cs := groups[..k], chunks[..k];
      ChunksPrefix(chunks, docId, groups, k);
      FreshWordsAre(cs, docId, gs, cfg);
      assert CarriedByAll(groups)[..k] == CarriedByAll(gs);
      assert ChunkOf(chunks, docId, groups, k);
      GroupWords(groups[k], cfg);
      assert Texts(FreshAll(groups)) == Texts(FreshAll(gs)) + Texts(Fresh(groups[k]));
      WordsOfAllConcat(Texts(FreshAll(gs)), Texts(Fresh(groups[k])));
    }
  }

  lemma NoTexts()
    ensures WordsOfAll(Texts([])) == []
  {
  }

  lemma ChunksPrefix(chunks: seq<Chunk>, docId: string, groups: seq<seq<TextSegment>>, k: nat)
    requires ChunksOf(chunks, docId, groups) && k <= |chunks|
    ensures ChunksOf(chunks[..k], docId, groups[..k])
  {
    hide MakeChunk;
    forall i | 0 <= i < k ensures ChunkOf(chunks[..k], docId, groups[..k], i) { assert ChunkOf(chunks, docId, groups, i); }
  }

  lemma SegmentWords(segments: seq<TextSegment>, n: string, cfg: ChunkingConfig)
    requires CutUpTo(segments, n, 0, |n|, cfg)
    ensures WordsOfAll(Texts(segments)) == Words(n)
  {
    hide Tiles, Words, Rendered, Sized;
    assert AllStandFor(segments, n, 0) by {
      forall i | 0 <= i < |segments| ensures StandsFor(segments[i], n, 0) { assert GoodSegment(segments[i], n, 0, cfg); }
    }
    TilesKeepWords(segments, n, 0, 0, |n|);
    assert n[0..|n|] == n;
  }

  lemma NormalizeTwiceKeepsWords(text: string)
    ensures Words(NormalizeText(NormalizeText(text))) == Words(text)
  {
    hide NormalizeText, Words;
    NormalizeKeepsWords(NormalizeText(text));
    NormalizeKeepsWords(text);
  }

  /** The chunks hold the document's words, in order, each word fresh in exactly one place. */
  lemma Coverage(chunks: seq<Chunk>, doc: SourceDocument, cfg: ChunkingConfig, segments: seq<TextSegment>, groups: seq<seq<TextSegment>>)
    requires ChunkedAs(chunks, doc, cfg, segments, groups)
    ensures CoversInOrder(chunks, CarriedByAll(groups), Words(doc.text))
  {
    hide IsGroup, LinkAt, ChunksOf, CarryAt, CutUpTo, Words, NormalizeText;
    assert |chunks| == |groups| by { ChunksLength(chunks, doc.docId, groups); }
    forall i | 0 <= i < |chunks| ensures CarryAt(chunks, CarriedByAll(groups), i) {
      CarryHolds(chunks, doc.docId, groups, segments, i, cfg);
    }
    FreshWordsAre(chunks, doc.docId, groups, cfg);
    SegmentWords(segments, NormalizeText(NormalizeText(doc.text)), cfg);
    NormalizeTwiceKeepsWords(doc.text);
  }

  lemma ChunksLength(chunks: seq<Chunk>, docId: string, groups: seq<seq<TextSegment>>)
    requires ChunksOf(chunks, docId, groups)
    ensures |chunks| == |groups|
    ensures forall i | 0 <= i < |chunks| :: ChunkOf(chunks, docId, groups, i)
  {
  }

  // ---------------------------------------------------------------------------
  // Size
  // ---------------------------------------------------------------------------

  /** Every chunk is within both limits, or is exactly one word longer than `maxChars`. */
  lemma Sizes(chunks: seq<Chunk>, doc: SourceDocument, cfg: ChunkingConfig, segments: seq<TextSegment>, groups: seq<seq<TextSegment>>, i: nat)
    requires ChunkedAs(chunks, doc, cfg, segments, groups) && i < |chunks|
    ensures chunks[i].text != "" && chunks[i].chunkIndex == i && chunks[i].tokenCount == |Words(chunks[i].text)|
    ensures chunks[i].sourceDocId == doc.docId
    ensures Sized(chunks[i].text, cfg)
  {
    hide LinkAt, CutUpTo, Words, NormalizeText, Sized, JoinSegments;
    assert ChunkOf(chunks, doc.docId, groups, i);
    GroupOf(groups, segments, i, cfg);
    GroupText(groups[i], cfg);
  }

  /** How many segments are fresh in the first `i` chunks. */
  function Placed(groups: seq<seq<TextSegment>>, i: nat): nat
    requires i <= |groups|
  {
    |FreshAll(groups[..i])|
  }

  lemma {:induction false} FreshAllConcat(a: seq<seq<TextSegment>>, b: seq<seq<TextSegment>>)
    ensures FreshAll(a + b) == FreshAll(a) + FreshAll(b)
    decreases |b|
  {
    hide Fresh;
    if b == [] {
      assert a + b == a;
    } else {
      var rest := b[..|b| - 1];
      FreshAllConcat(a, rest);
      assert (a + b)[..|a + b| - 1] == a + rest;
    }
  }

  lemma {:induction false} FirstFreshIsNext(groups: seq<seq<TextSegment>>, i: nat)
    requires i <= |groups| && FirstFresh(groups, i).Some?
    ensures Placed(groups, i) < |FreshAll(groups)| && FirstFresh(groups, i).value == FreshAll(groups)[Placed(groups, i)]
    decreases |groups| - i
  {
    hide Fresh;
    var pre, group := groups[..i], groups[i];
    FreshAllConcat(groups[..i + 1], groups[i + 1..]);
    assert groups == groups[..i + 1] + groups[i + 1..] && groups[..i + 1] == pre + [group];
    FreshAllSnoc(pre, group);
    if Fresh(group) == [] { FirstFreshIsNext(groups, i + 1); }
  }

  /** Chunks are full: none has room for the segment that comes next. */
  lemma Fullness(chunks: seq<Chunk>, doc: SourceDocument, cfg: ChunkingConfig, segments: seq<TextSegment>, groups: seq<seq<TextSegment>>, i: nat)
    requires ChunkedAs(chunks, doc, cfg, segments, groups) && i + 1 < |chunks|
    ensures |chunks| == |groups| && Placed(groups, i + 1) < |segments|
    ensures !WithinLimits(chunks[i].text + " " + segments[Placed(groups, i + 1)].text, cfg.maxChars, cfg.maxTokens)
  {
    hide CutUpTo, WithinLimits, NormalizeText, Sized, JoinSegments, After, Words, Join;
    assert ChunkOf(chunks, doc.docId, groups, i) && LinkAt(groups, i, cfg);
    GroupOf(groups, segments, i, cfg);
    FirstFreshIsNext(groups, i + 1);
    var next := segments[Placed(groups, i + 1)];
    GoodToTheEnd(segments, NormalizeText(NormalizeText(doc.text)), cfg);
    NextIsClean(segments, NormalizeText(NormalizeText(doc.text)), cfg, Placed(groups, i + 1));
    JoinOneMore(groups[i], next);
  }

  lemma GoodToTheEnd(segments: seq<TextSegment>, n: string, cfg: ChunkingConfig)
    requires CutUpTo(segments, n, 0, |n|, cfg)
    ensures AllGood(segments, n, 0, cfg)
  {
  }

  lemma NextIsClean(segments: seq<TextSegment>, n: string, cfg: ChunkingConfig, j: nat)
    requires j < |segments| && AllGood(segments, n, 0, cfg)
    ensures Clean(segments[j]) && Sized(segments[j].text, cfg) && !segments[j].overlap
  {
    hide Rendered, Sized, Words;
    assert GoodSegment(segments[j], n, 0, cfg);
  }

  lemma JoinOneMore(group: seq<TextSegment>, next: TextSegment)
    requires group != [] && AllClean(group) && Clean(next)
    ensures JoinSegments(group + [next]) == JoinSegments(group) + " " + next.text
  {
    hide JoinSegments, Clean, Join;
    JoinSegmentsOfClean(group);
    JoinSegmentsOfClean(group + [next]);
    assert Texts(group + [next]) == Texts(group) + [next.text];
    JoinSnoc(Texts(group), next.text);
  }

  // ---------------------------------------------------------------------------
  // Progress
  // ---------------------------------------------------------------------------

  /** A chunk that is all overlap comes right before a word longer than `maxChars`. */
  lemma OverlapOnlyBeforeLongWord(chunks: seq<Chunk>, doc: SourceDocument, cfg: ChunkingConfig,
                                  segments: seq<TextSegment>, groups: seq<seq<TextSegment>>, i: nat)
    requires ChunkedAs(chunks, doc, cfg, segments, groups) && i < |groups| && Fresh(groups[i]) == []
    ensures i > 0 && i + 1 < |groups| && groups[i + 1] != []
    ensures LongWord(groups[i + 1][0].text, cfg.maxChars) && !groups[i + 1][0].overlap
    ensures Placed(groups, i) < |segments| && segments[Placed(groups, i)] == groups[i + 1][0]
  {
    hide CutUpTo, LongWord, NormalizeText, JoinSegments, After, Words, OverlapSegment;
    GroupOf(groups, segments, i, cfg);
    PackEnds(groups, segments, cfg);
    assert groups[i] == [groups[i][0]];
    CarriedFromPrevious(groups, segments, i, cfg);
    assert LinkAt(groups, i - 1, cfg) && LinkAt(groups, i, cfg);
    FirstFreshIsFresh(groups, segments, i, cfg);
    GroupOf(groups, segments, i - 1, cfg);
    OverlapFacts(groups[i - 1], cfg);
    FirstFreshIsNext(groups, i);
    var next := segments[Placed(groups, i)];
    GoodToTheEnd(segments, NormalizeText(NormalizeText(doc.text)), cfg);
    NextIsClean(segments, NormalizeText(NormalizeText(doc.text)), cfg, Placed(groups, i));
    JoinSegmentsOfOne(next);
  }

  ghost predicate NoLongWords(text: string, cfg: ChunkingConfig) {
    forall i | 0 <= i < |Words(text)| :: |Words(text)[i]| <= cfg.maxChars
  }

  lemma {:induction false} WordOfSegment(segments: seq<TextSegment>, j: nat, w: string)
    requires j < |segments| && w in Words(segments[j].text)
    ensures w in WordsOfAll(Texts(segments))
    decreases |segments|
  {
    hide Words;
    var k := |segments| - 1;
    assert Texts(segments)[..k] == Texts(segments[..k]);
    if j < k { WordOfSegment(segments[..k], j, w); }
  }

  /** Without over-long words, every chunk carries a fresh segment. */
  lemma EveryChunkIsFresh(chunks: seq<Chunk>, doc: SourceDocument, cfg: ChunkingConfig,
                          segments: seq<TextSegment>, groups: seq<seq<TextSegment>>, i: nat)
    requires ChunkedAs(chunks, doc, cfg, segments, groups) && NoLongWords(doc.text, cfg) && i < |groups|
    ensures Fresh(groups[i]) != []
  {
    hide ChunkedAs, Words;
    if Fresh(groups[i]) == [] {
      OverlapOnlyBeforeLongWord(chunks, doc, cfg, segments, groups, i);
      var j := Placed(groups, i);
      WordsOfWord(segments[j].text);
      WordOfSegment(segments, j, segments[j].text);
      SegmentsOf(chunks, doc, cfg, segments, groups);
      SegmentWords(segments, NormalizeText(NormalizeText(doc.text)), cfg);
      NormalizeTwiceKeepsWords(doc.text);
    }
  }

  lemma SegmentsOf(chunks: seq<Chunk>, doc: SourceDocument, cfg: ChunkingConfig, segments: seq<TextSegment>, groups: seq<seq<TextSegment>>)
    requires ChunkedAs(chunks, doc, cfg, segments, groups)
    ensures var n := NormalizeText(NormalizeText(doc.text)); CutUpTo(segments, n, 0, |n|, cfg)
    ensures Packs(groups, segments, cfg) && ChunksOf(chunks, doc.docId, groups)
  {
  }

  lemma {:induction false} CountFresh(groups: seq<seq<TextSegment>>)
    requires forall i | 0 <= i < |groups| :: Fresh(groups[i]) != []
    ensures |groups| <= |FreshAll(groups)|
    decreases |groups|
  {
    if groups != [] { CountFresh(groups[..|groups| - 1]); }
  }

  /** Without over-long words, there are no more chunks than segments. */
  lemma NoMoreChunksThanSegments(chunks: seq<Chunk>, doc: SourceDocument, cfg: ChunkingConfig,
                                 segments: seq<TextSegment>, groups: seq<seq<TextSegment>>)
    requires ChunkedAs(chunks, doc, cfg, segments, groups) && NoLongWords(doc.text, cfg)
    ensures |chunks| <= |segments|
  {
    hide NormalizeText, CutUpTo, IsGroup, LinkAt, Fresh, NoLongWords;
    forall i | 0 <= i < |groups| ensures Fresh(groups[i]) != [] {
      EveryChunkIsFresh(chunks, doc, cfg, segments, groups, i);
    }
    CountFresh(groups);
  }

  // ---------------------------------------------------------------------------
  // Offsets
  // ---------------------------------------------------------------------------

  lemma {:induction false} GroupOffsets(group: seq<TextSegment>)
    requires group != [] && AllClean(group) && InOrder(group)
    ensures MinStart(group) == group[0].start && MaxEnd(group) == group[|group| - 1].end
    decreases |group|
  {
    hide Trimmed;
    if |group| > 1 {
      GroupOffsets(group[..|group| - 1]);
      assert Clean(group[0]) && Clean(group[|group| - 1]) && Clean(group[|group| - 2]);
      assert group[0].end <= group[|group| - 1].start && group[|group| - 2].end <= group[|group| - 1].start;
    }
  }

  /** Chunk `i` spans its group, from the first segment's start to the last one's end. */
  lemma ChunkSpan(chunks: seq<Chunk>, doc: SourceDocument, cfg: ChunkingConfig,
                  segments: seq<TextSegment>, groups: seq<seq<TextSegment>>, i: nat)
    requires ChunkedAs(chunks, doc, cfg, segments, groups) && i < |chunks|
    ensures |chunks| == |groups| && groups[i] != []
    ensures chunks[i].startChar == groups[i][0].start && chunks[i].endChar == groups[i][|groups[i]| - 1].end
    ensures chunks[i].startChar < chunks[i].endChar
  {
    hide CutUpTo, NormalizeText, LinkAt, Sized, JoinSegments, Words;
    assert ChunkOf(chunks, doc.docId, groups, i);
    GroupOf(groups, segments, i, cfg);
    GroupOffsets(groups[i]);
    GroupSpan(groups[i], cfg);
  }

  lemma OverlapPlace(group: seq<TextSegment>, cfg: ChunkingConfig, ov: TextSegment)
    requires IsGroup(group, cfg) && Overlapping(group, cfg) == Some(ov)
    ensures var text, k := JoinSegments(group), |Words(ov.text)|;
            && 0 < k <= |Words(text)|
            && ov.text == Join(Suffix(Words(text), k))
            && ov.start == Max(group[0].start, group[|group| - 1].end - |ov.text|)
  {
    hide IsGroup, Words, Join, Carried;
    OverlapFacts(group, cfg);
    OverlapWords(JoinSegments(group), cfg);
    WordsNonEmpty(ov.text);
    WordsOfOverlap(JoinSegments(group), cfg);
  }

  /**
    Where a chunk starts. If it carries words, so far before the end of the chunk before it as those
    words are long, single-spaced, but not before that chunk's start; if it carries none, where the
    next segment starts.
   */
  lemma StartsWhere(chunks: seq<Chunk>, doc: SourceDocument, cfg: ChunkingConfig,
                    segments: seq<TextSegment>, groups: seq<seq<TextSegment>>, i: nat)
    requires ChunkedAs(chunks, doc, cfg, segments, groups) && i + 1 < |chunks|
    ensures |chunks| == |groups| && Placed(groups, i + 1) < |segments|
    ensures var k, words := CarriedByAll(groups)[i + 1], Words(chunks[i].text);
            && k <= |words|
            && chunks[i + 1].startChar
               == if k == 0 then segments[Placed(groups, i + 1)].start
                  else Max(chunks[i].startChar, chunks[i].endChar - |Join(Suffix(words, k))|)
  {
    hide CutUpTo, NormalizeText, JoinSegments, Words, Join, Overlapping, IsGroup, LinkAt, Fresh;
    ChunkSpan(chunks, doc, cfg, segments, groups, i);
    ChunkSpan(chunks, doc, cfg, segments, groups, i + 1);
    assert ChunkOf(chunks, doc.docId, groups, i);
    GroupOf(groups, segments, i, cfg);
    CarriedFromPrevious(groups, segments, i + 1, cfg);
    HasFreshNext(groups, segments, i, cfg);
    FirstFreshIsNext(groups, i + 1);
    PackHolds(groups, segments, cfg);
    if groups[i + 1][0].overlap {
      OverlapPlace(groups[i], cfg, groups[i + 1][0]);
    } else {
      assert FirstFresh(groups, i + 1) == Some(groups[i + 1][0]) by {
        FreshFirstOf(groups[i + 1]);
      }
    }
  }

  lemma FreshFirstOf(group: seq<TextSegment>)
    requires group != [] && !group[0].overlap
    ensures Fresh(group) == group
  {
  }

  lemma HasFreshNext(groups: seq<seq<TextSegment>>, segments: seq<TextSegment>, i: nat, cfg: ChunkingConfig)
    requires Packs(groups, segments, cfg) && i + 1 < |groups|
    ensures FirstFresh(groups, i + 1).Some?
  {
    PackLink(groups, segments, i, cfg);
  }

  /** Offsets never go back; they move forward whenever the next chunk has something fresh. */
  lemma OffsetsAdvance(chunks: seq<Chunk>, doc: SourceDocument, cfg: ChunkingConfig,
                       segments: seq<TextSegment>, groups: seq<seq<TextSegment>>, i: nat)
    requires ChunkedAs(chunks, doc, cfg, segments, groups) && i + 1 < |chunks|
    ensures |chunks| == |groups|
    ensures chunks[i].startChar <= chunks[i + 1].startChar && chunks[i].endChar <= chunks[i + 1].endChar
    ensures Fresh(groups[i + 1]) != [] <==> chunks[i].endChar < chunks[i + 1].endChar
  {
    hide CutUpTo, NormalizeText, Handed, Sized, JoinSegments, Words, Trimmed;
    ChunkSpan(chunks, doc, cfg, segments, groups, i);
    ChunkSpan(chunks, doc, cfg, segments, groups, i + 1);
    assert LinkAt(groups, i, cfg);
    GroupOf(groups, segments, i + 1, cfg);
    var b := groups[i + 1];
    assert Clean(b[|b| - 1]);
    assert |b| > 1 ==> b[0].end <= b[|b| - 1].start;
  }

  lemma {:induction false} FreshIsPlaced(groups: seq<seq<TextSegment>>, i: nat, j: nat)
    requires i < |groups| && j < |Fresh(groups[i])|
    ensures Placed(groups, i) + j < |FreshAll(groups)| && Fresh(groups[i])[j] == FreshAll(groups)[Placed(groups, i) + j]
  {
    hide Fresh;
    var pre, group := groups[..i], groups[i];
    FreshAllConcat(groups[..i + 1], groups[i + 1..]);
    assert groups == groups[..i + 1] + groups[i + 1..] && groups[..i + 1] == pre + [group];
    FreshAllSnoc(pre, group);
  }

  /** A chunk's text: what it carries over, single-spaced, and the segments placed in it, with a space between each two. */
  lemma ChunkText(chunks: seq<Chunk>, doc: SourceDocument, cfg: ChunkingConfig,
                  segments: seq<TextSegment>, groups: seq<seq<TextSegment>>, i: nat)
    requires ChunkedAs(chunks, doc, cfg, segments, groups) && i < |chunks|
    ensures |chunks| == |groups| && Placed(groups, i) <= Placed(groups, i + 1) <= |segments|
    ensures var k, placed := CarriedByAll(groups)[i], Texts(segments[Placed(groups, i)..Placed(groups, i + 1)]);
            && (i == 0 ==> k == 0)
            && (k > 0 ==> k <= |Words(chunks[i - 1].text)|)
            && chunks[i].text == Join((if k == 0 then [] else [Join(Suffix(Words(chunks[i - 1].text), k))]) + placed)
  {
    hide CutUpTo, NormalizeText, JoinSegments, Words, Join, Overlapping, IsGroup, LinkAt, Fresh;
    var group := groups[i];
    assert ChunkOf(chunks, doc.docId, groups, i);
    GroupOf(groups, segments, i, cfg);
    PackHolds(groups, segments, cfg);
    FreshPlaced(groups, i);
    GroupIsJoined(group, cfg);
    if i == 0 {
      FirstIsFresh(chunks, doc, cfg, segments, groups);
      NoneCarried(group);
    } else {
      assert ChunkOf(chunks, doc.docId, groups, i - 1);
      GroupOf(groups, segments, i - 1, cfg);
      CarriedFromPrevious(groups, segments, i, cfg);
      if group[0].overlap {
        OverlapPlace(groups[i - 1], cfg, group[0]);
      }
    }
  }

  lemma GroupIsJoined(group: seq<TextSegment>, cfg: ChunkingConfig)
    requires IsGroup(group, cfg)
    ensures group != []
    ensures JoinSegments(group) == Join((if group[0].overlap then [group[0].text] else []) + Texts(Fresh(group)))
    ensures CarriedBy(group) == 0 <==> !group[0].overlap
  {
    hide JoinSegments, Words, Join, IsSpace, Sized, InOrder;
    JoinSegmentsOfClean(group);
    assert Clean(group[0]);
    WordsNonEmpty(group[0].text);
    HeadAndFresh(group);
    hide IsGroup, AllClean, IsFresh;
  }

  lemma HeadAndFresh(group: seq<TextSegment>)
    requires group != []
    ensures Texts(group) == (if group[0].overlap then [group[0].text] else []) + Texts(Fresh(group))
  {
  }

  lemma NoneCarried(group: seq<TextSegment>)
    requires group != [] && Fresh(group) == group
    ensures CarriedBy(group) == 0
  {
    assert !group[0].overlap;
  }

  /** The fresh segments of a group are the next ones of all. */
  lemma FreshPlaced(groups: seq<seq<TextSegment>>, i: nat)
    requires i < |groups|
    ensures Placed(groups, i) <= Placed(groups, i + 1) <= |FreshAll(groups)|
    ensures FreshAll(groups)[Placed(groups, i)..Placed(groups, i + 1)] == Fresh(groups[i])
  {
    hide Fresh, FreshAll;
    FreshAllConcat(groups[..i + 1], groups[i + 1..]);
    assert groups == groups[..i + 1] + groups[i + 1..] && groups[..i + 1] == groups[..i] + [groups[i]];
    FreshAllSnoc(groups[..i], groups[i]);
    InTheMiddle(FreshAll(groups[..i]), Fresh(groups[i]), FreshAll(groups[i + 1..]));
  }

  lemma InTheMiddle(a: seq<TextSegment>, b: seq<TextSegment>, c: seq<TextSegment>)
    ensures (a + b + c)[|a|..|a + b|] == b
  {
  }

  /** Offsets stay inside the text that was cut. */
  lemma {:induction false} OffsetsInside(chunks: seq<Chunk>, doc: SourceDocument, cfg: ChunkingConfig,
                                         segments: seq<TextSegment>, groups: seq<seq<TextSegment>>, i: nat)
    requires ChunkedAs(chunks, doc, cfg, segments, groups) && i < |chunks|
    ensures 0 <= chunks[i].startChar < chunks[i].endChar <= |NormalizeText(NormalizeText(doc.text))| <= |doc.text|
    decreases i
  {
    hide ChunkedAs, NormalizeText, FreshAll, IsGroup, Words;
    var n := NormalizeText(NormalizeText(doc.text));
    ChunkSpan(chunks, doc, cfg, segments, groups, i);
    if i > 0 {
      OffsetsInside(chunks, doc, cfg, segments, groups, i - 1);
      OffsetsAdvance(chunks, doc, cfg, segments, groups, i - 1);
    } else {
      FirstIsFresh(chunks, doc, cfg, segments, groups);
    }
    if Fresh(groups[i]) != [] {
      var k := |Fresh(groups[i])| - 1;
      SegmentsOf(chunks, doc, cfg, segments, groups);
      GoodToTheEnd(segments, n, cfg);
      PackHolds(groups, segments, cfg);
      FreshInside(segments, n, cfg, groups, i, k);
      FreshInside(segments, n, cfg, groups, i, 0);
    }
  }

  lemma FirstIsFresh(chunks: seq<Chunk>, doc: SourceDocument, cfg: ChunkingConfig,
                     segments: seq<TextSegment>, groups: seq<seq<TextSegment>>)
    requires ChunkedAs(chunks, doc, cfg, segments, groups) && groups != []
    ensures groups[0] != [] && Fresh(groups[0]) == groups[0]
  {
    hide CutUpTo, NormalizeText;
    PackEnds(groups, segments, cfg);
  }

  lemma PackHolds(groups: seq<seq<TextSegment>>, segments: seq<TextSegment>, cfg: ChunkingConfig)
    requires Packs(groups, segments, cfg)
    ensures FreshAll(groups) == segments
  {
  }

  lemma FreshInside(segments: seq<TextSegment>, n: string, cfg: ChunkingConfig, groups: seq<seq<TextSegment>>, i: nat, j: nat)
    requires FreshAll(groups) == segments && AllGood(segments, n, 0, cfg)
    requires i < |groups| && j < |Fresh(groups[i])|
    ensures 0 <= Fresh(groups[i])[j].start < Fresh(groups[i])[j].end <= |n|
  {
    hide Fresh, FreshAll, Words, Sized, Rendered;
    FreshIsPlaced(groups, i, j);
    assert GoodSegment(segments[Placed(groups, i) + j], n, 0, cfg);
  }

  /** The segment of a tiling that holds a given non-space position. */
  lemma {:induction false} SegmentHolding(segs: seq<TextSegment>, n: string, hi: nat, p: nat) returns (j: nat)
    requires hi <= |n| && Tiles(segs, n, 0, 0, hi) && p < hi && !IsSpace(n[p])
    ensures j < |segs| && segs[j].start <= p < segs[j].end
    decreases |segs|
  {
    hide IsSpace, CleanCut;
    var last := segs[|segs| - 1];
    if last.start <= p {
      j := |segs| - 1;
    } else {
      j := SegmentHolding(segs[..|segs| - 1], n, last.start, p);
    }
  }

  /** The group in which segment `j` is fresh. */
  lemma {:induction false} GroupHolding(groups: seq<seq<TextSegment>>, j: nat) returns (i: nat, k: nat)
    requires j < |FreshAll(groups)|
    ensures i < |groups| && k < |Fresh(groups[i])| && Fresh(groups[i])[k] == FreshAll(groups)[j]
    decreases |groups|
  {
    var last := |groups| - 1;
    if j < |FreshAll(groups[..last])| {
      i, k := GroupHolding(groups[..last], j);
    } else {
      i, k := last, j - |FreshAll(groups[..last])|;
    }
  }

  lemma FreshPlace(group: seq<TextSegment>, k: nat) returns (at: nat)
    requires k < |Fresh(group)|
    ensures at < |group| && group[at] == Fresh(group)[k]
  {
    at := if group[0].overlap then k + 1 else k;
  }

  /** Every non-space character of the text lies in the range of some chunk. */
  lemma OffsetsCover(chunks: seq<Chunk>, doc: SourceDocument, cfg: ChunkingConfig,
                     segments: seq<TextSegment>, groups: seq<seq<TextSegment>>, p: nat)
    requires ChunkedAs(chunks, doc, cfg, segments, groups)
    requires var n := NormalizeText(NormalizeText(doc.text)); p < |n| && !IsSpace(n[p])
    ensures exists i | 0 <= i < |chunks| :: chunks[i].startChar <= p < chunks[i].endChar
  {
    hide NormalizeText, ChunksOf, LinkAt, IsSpace, Words, IsGroup, AllGood, Fresh, Tiles;
    var n := NormalizeText(NormalizeText(doc.text));
    var j := SegmentHolding(segments, n, |n|, p);
    var i, k := GroupHolding(groups, j);
    ChunksLength(chunks, doc.docId, groups);
    ChunkSpan(chunks, doc, cfg, segments, groups, i);
    GroupOf(groups, segments, i, cfg);
    GroupEnds(groups[i], cfg);
    var at := FreshPlace(groups[i], k);
    assert chunks[i].startChar <= p < chunks[i].endChar;
  }
}
