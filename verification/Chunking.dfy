/**
  `chunk_document`: the packing loop, its flush, and what the chunks it returns guarantee.
 */
module Chunking {
  import opened Text
  import opened Segments
  import opened Splitting
  import opened Overlap
  import opened Packing
  import opened Wrappers

  datatype SourceDocument = SourceDocument(docId: string, text: string)

  datatype Chunk = Chunk(
    sourceDocId: string, chunkIndex: nat, text: string, startChar: int, endChar: int, tokenCount: nat)

  datatype ConfigError = BadMaxChars | BadMaxTokens | BadOverlapChars | BadOverlapTokens

  function ValidateConfig(cfg: ChunkingConfig): (r: Option<ConfigError>)
    ensures r == None <==> ValidConfig(cfg)
  {
    if cfg.maxChars <= 0 then Some(BadMaxChars)
    else if cfg.maxTokens <= 0 then Some(BadMaxTokens)
    else if cfg.overlapChars < 0 then Some(BadOverlapChars)
    else if cfg.overlapTokens < 0 then Some(BadOverlapTokens)
    else None
  }

  function MinStart(group: seq<TextSegment>): int
    requires group != []
  {
    var last := group[|group| - 1].start;
    if |group| == 1 then last
    else
      var rest := MinStart(group[..|group| - 1]);
      if last < rest then last else rest
  }

  function MaxEnd(group: seq<TextSegment>): int
    requires group != []
  {
    var last := group[|group| - 1].end;
    if |group| == 1 then last else Max(MaxEnd(group[..|group| - 1]), last)
  }

  function MakeChunk(docId: string, group: seq<TextSegment>, index: nat): Chunk
    requires group != []
  {
    var text := JoinSegments(group);
    Chunk(docId, index, text, MinStart(group), MaxEnd(group), CountTokens(text))
  }

  ghost predicate ChunkOf(chunks: seq<Chunk>, docId: string, groups: seq<seq<TextSegment>>, i: int) {
    0 <= i < |chunks| == |groups| && groups[i] != [] && chunks[i] == MakeChunk(docId, groups[i], i)
  }

  /** Chunk `i` is made of group `i`. */
  ghost predicate ChunksOf(chunks: seq<Chunk>, docId: string, groups: seq<seq<TextSegment>>) {
    |chunks| == |groups| && forall i | 0 <= i < |chunks| :: ChunkOf(chunks, docId, groups, i)
  }

  lemma ChunksSnoc(chunks: seq<Chunk>, docId: string, groups: seq<seq<TextSegment>>, group: seq<TextSegment>)
    requires ChunksOf(chunks, docId, groups) && group != []
    ensures ChunksOf(chunks + [MakeChunk(docId, group, |chunks|)], docId, groups + [group])
  {
    hide MakeChunk;
    var chunks', groups' := chunks + [MakeChunk(docId, group, |chunks|)], groups + [group];
    forall i | 0 <= i < |chunks'| ensures ChunkOf(chunks', docId, groups', i) {
      if i < |chunks| { assert ChunkOf(chunks, docId, groups, i); }
    }
  }

  method MakeOverlap(chunkText: string, segs: seq<TextSegment>, cfg: ChunkingConfig) returns (r: Option<TextSegment>)
    requires segs != []
    ensures r == OverlapSegment(chunkText, segs, cfg)
  {
    var overlap := OverlapText(chunkText, cfg);
    if overlap == "" || overlap == chunkText {
      return None;
    }
    var sourceStart, sourceEnd := segs[0].start, segs[|segs| - 1].end;
    var start := Max(sourceStart, sourceEnd - |overlap|);
    r := Some(TextSegment(overlap, start, sourceEnd, true));
  }

  /** What is left in hand after a flush: the overlap, if there is one. */
  function Leftover(group: seq<TextSegment>, cfg: ChunkingConfig): seq<TextSegment>
    requires group != []
  {
    match Overlapping(group, cfg)
    case None => []
    case Some(ov) => [ov]
  }

  /** Emit the segments in hand as a chunk and keep only its overlap. */
  method Flush(docId: string, cfg: ChunkingConfig, chunks: seq<Chunk>, current: seq<TextSegment>)
    returns (chunks': seq<Chunk>, current': seq<TextSegment>)
    ensures current == [] ==> chunks' == chunks && current' == []
    ensures current != [] && JoinSegments(current) == "" ==> chunks' == chunks && current' == []
    ensures current != [] && JoinSegments(current) != "" ==>
              chunks' == chunks + [MakeChunk(docId, current, |chunks|)] && current' == Leftover(current, cfg)
  {
    chunks', current' := chunks, current;
    if current == [] {
      return;
    }
    var chunkText := JoinSegments(current);
    if chunkText == "" {
      current' := [];
      return;
    }
    chunks' := chunks + [MakeChunk(docId, current, |chunks|)];
    var overlap := MakeOverlap(chunkText, current, cfg);
    current' := if overlap.Some? then [overlap.value] else [];
  }

  /** The segments still to come start after those in hand, and each is good. */
  ghost predicate Incoming(segments: seq<TextSegment>, cfg: ChunkingConfig) {
    && (forall i | 0 <= i < |segments| :: Clean(segments[i]) && !segments[i].overlap && Sized(segments[i].text, cfg))
    && InOrder(segments)
  }

  lemma {:induction false} TilesInOrder(segs: seq<TextSegment>, t: string, base: int, lo: nat, hi: nat)
    requires lo <= hi <= |t| && Tiles(segs, t, base, lo, hi)
    ensures InOrder(segs)
    ensures forall i | 0 <= i < |segs| :: base + lo <= segs[i].start < segs[i].end <= base + hi
    decreases |segs|
  {
    hide IsSpace, Gap, CleanCut;
    if segs != [] {
      TilesInOrder(segs[..|segs| - 1], t, base, lo, segs[|segs| - 1].start - base);
    }
  }

  lemma CutIsIncoming(segments: seq<TextSegment>, n: string, cfg: ChunkingConfig)
    requires CutUpTo(segments, n, 0, |n|, cfg)
    ensures Incoming(segments, cfg)
  {
    hide Tiles, IsSpace, Words, Sized;
    TilesInOrder(segments, n, 0, 0, |n|);
    assert forall i | 0 <= i < |segments| :: GoodSegment(segments[i], n, 0, cfg);
  }

  lemma NextIncoming(segments: seq<TextSegment>, i: nat, current: seq<TextSegment>, cfg: ChunkingConfig)
    requires Incoming(segments, cfg) && i < |segments|
    ensures Clean(segments[i]) && !segments[i].overlap && Sized(segments[i].text, cfg)
    ensures i > 0 && current != [] && current[|current| - 1] == segments[i - 1] ==> NextFor(current, segments[i], cfg)
    ensures segments[..i] + [segments[i]] == segments[..i + 1]
  {
    hide Sized, Trimmed;
  }

  /** The chunks emitted so far, and the segments in hand. */
  ghost predicate InHand(packed: seq<seq<TextSegment>>, current: seq<TextSegment>, segments: seq<TextSegment>, i: nat, cfg: ChunkingConfig) {
    && i <= |segments|
    && if i == 0 then packed == [] && current == []
       else current != [] && current[|current| - 1] == segments[i - 1] && Packs(packed + [current], segments[..i], cfg)
  }

  /** Everything `chunk_document` promises about the chunks, in terms of how they were packed. */
  ghost predicate ChunkedAs(chunks: seq<Chunk>, doc: SourceDocument, cfg: ChunkingConfig, segments: seq<TextSegment>, groups: seq<seq<TextSegment>>) {
    var n := NormalizeText(NormalizeText(doc.text));
    && CutUpTo(segments, n, 0, |n|, cfg)
    && Packs(groups, segments, cfg)
    && ChunksOf(chunks, doc.docId, groups)
  }

  /** The paragraphs of the text that fit, from the first on, are among the segments as they are. */
  ghost predicate WholeParagraphs(doc: SourceDocument, cfg: ChunkingConfig, segments: seq<TextSegment>) {
    exists paragraphs :: KeepsWhole(paragraphs, segments, NormalizeText(NormalizeText(doc.text)), cfg)
  }

  lemma NoParagraphs(doc: SourceDocument, cfg: ChunkingConfig)
    requires NormalizeText(doc.text) == ""
    ensures WholeParagraphs(doc, cfg, [])
  {
    assert ReplaceCrLf("") == "" && NormalizeText("") == "";
    assert KeepsWhole([], [], "", cfg);
  }

  lemma Witnessed(doc: SourceDocument, cfg: ChunkingConfig, segments: seq<TextSegment>, whole: seq<TextSegment>)
    requires KeepsWhole(whole, segments, NormalizeText(NormalizeText(doc.text)), cfg)
    ensures WholeParagraphs(doc, cfg, segments)
  {
  }

  lemma StartInHand(segments: seq<TextSegment>, docId: string, cfg: ChunkingConfig)
    ensures InHand([], [], segments, 0, cfg) && ChunksOf([], docId, [])
  {
  }

  lemma NothingToCut(doc: SourceDocument, cfg: ChunkingConfig)
    requires NormalizeText(doc.text) == ""
    ensures ChunkedAs([], doc, cfg, [], [])
  {
    hide Packs;
    assert ReplaceCrLf("") == "" && NormalizeText("") == "";
    PacksNothing(cfg);
  }

  lemma PacksNothing(cfg: ChunkingConfig)
    ensures Packs([], [], cfg)
  {
  }

  lemma Chunked(chunks: seq<Chunk>, doc: SourceDocument, cfg: ChunkingConfig, segments: seq<TextSegment>,
                packed: seq<seq<TextSegment>>, current: seq<TextSegment>, n: string)
    requires n == NormalizeText(NormalizeText(doc.text)) && CutUpTo(segments, n, 0, |n|, cfg)
    requires segments != [] && InHand(packed, current, segments, |segments|, cfg)
    requires ChunksOf(chunks, doc.docId, packed + [current])
    ensures ChunkedAs(chunks, doc, cfg, segments, packed + [current])
  {
    assert segments[..|segments|] == segments;
  }

  predicate AllOverlap(segs: seq<TextSegment>) {
    forall j | 0 <= j < |segs| :: segs[j].overlap
  }

  /** What holds before each segment is placed. */
  lemma BeforePlacing(packed: seq<seq<TextSegment>>, current: seq<TextSegment>, segments: seq<TextSegment>, i: nat, cfg: ChunkingConfig)
    requires InHand(packed, current, segments, i, cfg) && Incoming(segments, cfg) && i < |segments|
    ensures current == [] <==> i == 0
    ensures i == 0 ==> packed == []
    ensures i == 0 ==> InHand([], [segments[0]], segments, 1, cfg)
    ensures i > 0 ==>
              && Packs(packed + [current], segments[..i], cfg) && NextFor(current, segments[i], cfg)
              && JoinSegments(current) != "" && !AllOverlap(current)
    ensures JoinSegments([segments[i]]) != ""
  {
    hide Packs, Sized, JoinSegments;
    NextIncoming(segments, i, current, cfg);
    SingletonGroup(segments[i], cfg);
    if i == 0 {
      PackFirst(segments[0], cfg);
      assert segments[..1] == [segments[0]] && [] + [[segments[0]]] == [[segments[0]]];
    } else {
      LastHasFresh(packed, current, segments[..i], cfg);
    }
  }

  lemma PlacedIs(packed: seq<seq<TextSegment>>, current: seq<TextSegment>, segments: seq<TextSegment>, i: nat, cfg: ChunkingConfig)
    requires i < |segments| && current != [] && current[|current| - 1] == segments[i]
    requires Packs(packed + [current], segments[..i] + [segments[i]], cfg)
    ensures InHand(packed, current, segments, i + 1, cfg)
    ensures JoinSegments(current) != ""
  {
    hide Packs, JoinSegments;
    assert segments[..i] + [segments[i]] == segments[..i + 1];
    LastHasFresh(packed, current, segments[..i + 1], cfg);
  }

  /** Where a segment may end up, given those in hand; exactly one case applies. */
  lemma Placements(packed: seq<seq<TextSegment>>, current: seq<TextSegment>, segments: seq<TextSegment>, i: nat, cfg: ChunkingConfig)
    requires InHand(packed, current, segments, i, cfg) && Incoming(segments, cfg) && i < |segments|
    ensures var seg := segments[i];
            && JoinSegments([seg]) != ""
            && (current == [] ==> InHand(packed, [seg], segments, i + 1, cfg))
            && (current != [] ==>
                  && JoinSegments(current) != "" && !AllOverlap(current)
                  && (Room(current + [seg], cfg) ==> InHand(packed, current + [seg], segments, i + 1, cfg)))
  {
    hide Packs, Sized, JoinSegments, Room, NextFor, Clean;
    BeforePlacing(packed, current, segments, i, cfg);
    var seg := segments[i];
    if current != [] && Room(current + [seg], cfg) {
      PackStay(packed, current, segments[..i], seg, cfg);
      PlacedIs(packed, current + [seg], segments, i, cfg);
    }
  }

  lemma FlushPlacements(packed: seq<seq<TextSegment>>, current: seq<TextSegment>, segments: seq<TextSegment>, i: nat, cfg: ChunkingConfig)
    requires InHand(packed, current, segments, i, cfg) && Incoming(segments, cfg) && i < |segments|
    requires current != [] && !Room(current + [segments[i]], cfg)
    ensures var seg := segments[i];
            match Overlapping(current, cfg)
            case None => Leftover(current, cfg) == [] && InHand(packed + [current], [seg], segments, i + 1, cfg)
            case Some(ov) =>
              && Leftover(current, cfg) == [ov] && JoinSegments([ov]) != "" && Leftover([ov], cfg) == []
              && (Room([ov, seg], cfg) ==> InHand(packed + [current], [ov, seg], segments, i + 1, cfg))
              && (!Room([ov, seg], cfg) && Room([seg], cfg) ==> InHand(packed + [current], [seg], segments, i + 1, cfg))
              && (!Room([ov, seg], cfg) && !Room([seg], cfg) ==> InHand(packed + [current] + [[ov]], [seg], segments, i + 1, cfg))
  {
    hide Packs, Sized, JoinSegments, Room, NextFor, Clean, Overlapping, InHand, IsGroup;
    BeforePlacing(packed, current, segments, i, cfg);
    var seg := segments[i];
    HandOver(packed, current, segments[..i], seg, cfg);
    match Overlapping(current, cfg)
    case None => PlacedIs(packed + [current], [seg], segments, i, cfg);
    case Some(ov) =>
      GroupText([ov], cfg);
      if Room([ov, seg], cfg) {
        PlacedIs(packed + [current], [ov, seg], segments, i, cfg);
      } else if Room([seg], cfg) {
        PlacedIs(packed + [current], [seg], segments, i, cfg);
      } else {
        PlacedIs(packed + [current] + [[ov]], [seg], segments, i, cfg);
      }
  }

  lemma RoomIs(segs: seq<TextSegment>, cfg: ChunkingConfig)
    ensures Room(segs, cfg) <==> WithinLimits(JoinSegments(segs), cfg.maxChars, cfg.maxTokens)
  {
  }

  lemma PlacedText(packed: seq<seq<TextSegment>>, current: seq<TextSegment>, segments: seq<TextSegment>, i: nat, cfg: ChunkingConfig)
    requires InHand(packed, current, segments, i, cfg) && i > 0
    ensures JoinSegments(current) != "" && current != []
  {
    hide Packs, JoinSegments;
    LastHasFresh(packed, current, segments[..i], cfg);
  }

  /** Place one segment: keep it with those in hand, or flush once or twice first. */
  method PlaceSegment(docId: string, cfg: ChunkingConfig, chunks: seq<Chunk>, current: seq<TextSegment>,
                      segment: TextSegment, ghost packed: seq<seq<TextSegment>>, ghost segments: seq<TextSegment>, ghost i: nat)
    returns (chunks': seq<Chunk>, current': seq<TextSegment>, ghost packed': seq<seq<TextSegment>>)
    requires Incoming(segments, cfg) && i < |segments| && segment == segments[i]
    requires InHand(packed, current, segments, i, cfg) && ChunksOf(chunks, docId, packed)
    ensures InHand(packed', current', segments, i + 1, cfg) && ChunksOf(chunks', docId, packed')
  {
    hide *;
    chunks', current', packed' := chunks, current, packed;
    Placements(packed, current, segments, i, cfg);
    var candidateSegments := current' + [segment];
    var candidateText := JoinSegments(candidateSegments);
    RoomIs(candidateSegments, cfg);
    RoomIs([segment], cfg);
    assert current == [] ==> candidateSegments == [segment];
    if current' != [] && !WithinLimits(candidateText, cfg.maxChars, cfg.maxTokens) {
      FlushPlacements(packed, current, segments, i, cfg);
      if AllOverlap(current') {
        candidateSegments := [segment];
      } else {
        ChunksSnoc(chunks', docId, packed', current');
        packed' := packed' + [current'];
        chunks', current' := Flush(docId, cfg, chunks', current');
        candidateSegments := current' + [segment];
        candidateText := JoinSegments(candidateSegments);
        RoomIs(candidateSegments, cfg);
        assert if current' == [] then candidateSegments == [segment] else candidateSegments == [current'[0], segment];
        if current' != [] && !WithinLimits(candidateText, cfg.maxChars, cfg.maxTokens) {
          candidateSegments := [segment];
        }
      }
    }

    candidateText := JoinSegments(candidateSegments);
    if current' != [] && !WithinLimits(candidateText, cfg.maxChars, cfg.maxTokens) {
      ChunksSnoc(chunks', docId, packed', current');
      packed' := packed' + [current'];
      chunks', current' := Flush(docId, cfg, chunks', current');
      candidateSegments := current' + [segment];
      assert candidateSegments == [segment];
      candidateText := JoinSegments(candidateSegments);
      if current' != [] && !WithinLimits(candidateText, cfg.maxChars, cfg.maxTokens) {
        candidateSegments := [segment];
        candidateText := JoinSegments(candidateSegments);
      }
    }
    assert InHand(packed', candidateSegments, segments, i + 1, cfg);
    PlacedText(packed', candidateSegments, segments, i + 1, cfg);
    if candidateText != "" {
      current' := candidateSegments;
    }
  }

  lemma GroupsNonEmpty(packed: seq<seq<TextSegment>>, current: seq<TextSegment>, segments: seq<TextSegment>, i: nat, cfg: ChunkingConfig)
    requires InHand(packed, current, segments, i, cfg)
    ensures current == [] <==> i == 0
  {
  }

  /** Split a document into chunks; `groups` records which segments each chunk was made of. */
  method ChunkDocument(doc: SourceDocument, cfg: ChunkingConfig)
    returns (r: Result<seq<Chunk>, ConfigError>, ghost cut: seq<TextSegment>, ghost groups: seq<seq<TextSegment>>)
    ensures r.Err? <==> !ValidConfig(cfg)
    ensures r.Err? ==> ValidateConfig(cfg) == Some(r.error)
    ensures r.Ok? ==> ChunkedAs(r.value, doc, cfg, cut, groups) && WholeParagraphs(doc, cfg, cut)
  {
    hide *;
    cut, groups := [], [];
    var invalid := ValidateConfig(cfg);
    if invalid.Some? {
      return Err(invalid.value), [], [];
    }
    var text := NormalizeText(doc.text);
    if text == "" {
      NothingToCut(doc, cfg);
      NoParagraphs(doc, cfg);
      return Ok([]), [], [];
    }
    var segments;
    ghost var whole;
    segments, whole := SplitSegments(text, cfg);
    Witnessed(doc, cfg, segments, whole);
    ghost var n := NormalizeText(text);
    cut := segments;
    if segments == [] {
      NoSegments(doc, cfg);
      return Ok([]), [], [];
    }
    var chunks: seq<Chunk> := [];
    var current: seq<TextSegment> := [];
    ghost var packed: seq<seq<TextSegment>> := [];
    CutIsIncoming(segments, n, cfg);
    StartInHand(segments, doc.docId, cfg);
    for i := 0 to |segments|
      invariant InHand(packed, current, segments, i, cfg) && ChunksOf(chunks, doc.docId, packed)
    {
      chunks, current, packed := PlaceSegment(doc.docId, cfg, chunks, current, segments[i], packed, segments, i);
    }
    GroupsNonEmpty(packed, current, segments, |segments|, cfg);
    PlacedText(packed, current, segments, |segments|, cfg);
    ChunksSnoc(chunks, doc.docId, packed, current);
    groups := packed + [current];
    chunks, current := Flush(doc.docId, cfg, chunks, current);
    Chunked(chunks, doc, cfg, segments, packed, groups[|packed|], n);
    r := Ok(chunks);
  }

  lemma NoSegments(doc: SourceDocument, cfg: ChunkingConfig)
    requires CutUpTo([], NormalizeText(NormalizeText(doc.text)), 0, |NormalizeText(NormalizeText(doc.text))|, cfg)
    ensures ChunkedAs([], doc, cfg, [], [])
  {
    hide NormalizeText;
    PacksNothing(cfg);
  }
}
