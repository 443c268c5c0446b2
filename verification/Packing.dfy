/**
  Packing segments into chunks.  A group is the list of segments of one chunk; a packing
  is the list of groups, each one handed an overlap by the one before it.
 */
module Packing {
  import opened Text
  import opened Segments
  import opened Splitting
  import opened Overlap
  import opened Wrappers

  // ---------------------------------------------------------------------------
  // Groups
  // ---------------------------------------------------------------------------

  /** The stripped, non-empty texts of the segments. */
  function StrippedTexts(segs: seq<TextSegment>): seq<string> {
    if segs == [] then []
    else
      var t := Strip(segs[|segs| - 1].text);
      StrippedTexts(segs[..|segs| - 1]) + (if t == "" then [] else [t])
  }

  function JoinSegments(segs: seq<TextSegment>): string {
    Strip(Join(StrippedTexts(segs)))
  }

  predicate Clean(seg: TextSegment) {
    seg.text != "" && Trimmed(seg.text) && seg.start < seg.end
  }

  predicate AllClean(segs: seq<TextSegment>) {
    forall i | 0 <= i < |segs| :: Clean(segs[i])
  }

  lemma {:induction false} StrippedTextsOfClean(segs: seq<TextSegment>)
    requires AllClean(segs)
    ensures StrippedTexts(segs) == Texts(segs)
    decreases |segs|
  {
    hide IsSpace, Strip, Trimmed;
    if segs != [] {
      assert Clean(segs[|segs| - 1]);
      StrippedTextsOfClean(segs[..|segs| - 1]);
      StripTrimmed(segs[|segs| - 1].text);
    }
  }

  /** For clean segments, joining needs no stripping. */
  lemma JoinSegmentsOfClean(segs: seq<TextSegment>)
    requires AllClean(segs)
    ensures JoinSegments(segs) == Join(Texts(segs))
    ensures segs != [] ==> JoinSegments(segs) != ""
    ensures Words(JoinSegments(segs)) == WordsOfAll(Texts(segs))
  {
    hide IsSpace, Words, Strip;
    StrippedTextsOfClean(segs);
    JoinTrimmed(Texts(segs));
    StripTrimmed(Join(Texts(segs)));
    WordsJoin(Texts(segs));
  }

  lemma JoinSegmentsOfOne(seg: TextSegment)
    requires Clean(seg)
    ensures JoinSegments([seg]) == seg.text
  {
    JoinSegmentsOfClean([seg]);
    assert Texts([seg]) == [seg.text];
  }

  /** The segment seeding the next chunk, if any. */
  function OverlapSegment(chunkText: string, segs: seq<TextSegment>, cfg: ChunkingConfig): Option<TextSegment>
    requires segs != []
  {
    var overlap := OverlapOf(chunkText, cfg);
    if overlap == "" || overlap == chunkText then None
    else
      var end := segs[|segs| - 1].end;
      Some(TextSegment(overlap, Max(segs[0].start, end - |overlap|), end, true))
  }

  function Max(a: int, b: int): int {
    if a < b then b else a
  }

  /** The overlap handed on by a group. */
  function Overlapping(group: seq<TextSegment>, cfg: ChunkingConfig): Option<TextSegment>
    requires group != []
  {
    OverlapSegment(JoinSegments(group), group, cfg)
  }

  predicate Room(segs: seq<TextSegment>, cfg: ChunkingConfig) {
    WithinLimits(JoinSegments(segs), cfg.maxChars, cfg.maxTokens)
  }

  /** The segments of a group that are not carried over. */
  function Fresh(group: seq<TextSegment>): seq<TextSegment> {
    if group != [] && group[0].overlap then group[1..] else group
  }

  predicate IsFresh(segs: seq<TextSegment>) {
    forall i | 0 <= i < |segs| :: !segs[i].overlap
  }

  predicate InOrder(segs: seq<TextSegment>) {
    forall i, j | 0 <= i < j < |segs| :: segs[i].end <= segs[j].start
  }

  /** A group: clean segments in text order, at most the first one carried over, sized as a whole. */
  predicate IsGroup(group: seq<TextSegment>, cfg: ChunkingConfig) {
    && group != [] && AllClean(group) && InOrder(group)
    && IsFresh(Fresh(group))
    && Sized(JoinSegments(group), cfg)
  }

  /** Facts about the overlap a group hands on. */
  lemma OverlapFacts(group: seq<TextSegment>, cfg: ChunkingConfig)
    requires IsGroup(group, cfg) && Overlapping(group, cfg).Some?
    ensures var ov := Overlapping(group, cfg).value;
            && Clean(ov) && ov.overlap
            && group[0].start <= ov.start && ov.end == group[|group| - 1].end
            && ov.text == OverlapOf(JoinSegments(group), cfg)
            && WithinLimits(ov.text, cfg.maxChars, cfg.maxTokens)
            && IsGroup([ov], cfg) && Overlapping([ov], cfg) == None
  {
    hide IsSpace, Words, OverlapOf, JoinSegments, InOrder, AllClean;
    var ov, text := Overlapping(group, cfg).value, JoinSegments(group);
    WordsOfOverlap(text, cfg);
    OverlapNoLonger(text, cfg);
    if LongWord(text, cfg.maxChars) { OverlapOfWord(text, cfg); }
    GroupSpan(group, cfg);
    assert Clean(ov);
    SingletonGroup(ov, cfg);
    OverlapIdempotent(text, cfg);
  }

  lemma SingletonGroup(seg: TextSegment, cfg: ChunkingConfig)
    requires Clean(seg) && Sized(seg.text, cfg)
    ensures IsGroup([seg], cfg) && JoinSegments([seg]) == seg.text
  {
    hide IsSpace, Words, JoinSegments, Sized;
    JoinSegmentsOfOne(seg);
  }

  lemma GroupSpan(group: seq<TextSegment>, cfg: ChunkingConfig)
    requires IsGroup(group, cfg)
    ensures group[0].start < group[|group| - 1].end
  {
    assert Clean(group[0]) && Clean(group[|group| - 1]);
    assert |group| > 1 ==> group[0].end <= group[|group| - 1].start;
  }

  // ---------------------------------------------------------------------------
  // Packings
  // ---------------------------------------------------------------------------

  /** What `group`, coming right after `prev`, must look like when `next` is the next fresh segment. */
  ghost predicate Handed(prev: seq<TextSegment>, group: seq<TextSegment>, next: TextSegment, cfg: ChunkingConfig)
    requires prev != []
  {
    && !Room(prev + [next], cfg)
    && match Overlapping(prev, cfg)
       case None => |group| > 0 && group[0] == next
       case Some(ov) =>
         if Room([ov, next], cfg) then |group| > 1 && group[0] == ov && group[1] == next
         else if Room([next], cfg) then |group| > 0 && group[0] == next
         else group == [ov]
  }

  /** The first fresh segment at or after group `i`. */
  function FirstFresh(groups: seq<seq<TextSegment>>, i: nat): Option<TextSegment>
    decreases |groups| - i
  {
    if i >= |groups| then None
    else if Fresh(groups[i]) != [] then Some(Fresh(groups[i])[0])
    else FirstFresh(groups, i + 1)
  }

  /** Where group `b` lies relative to the group `a` before it. */
  predicate After(a: seq<TextSegment>, b: seq<TextSegment>)
    requires a != [] && b != []
  {
    && a[0].start <= b[0].start && a[|a| - 1].end <= b[|b| - 1].end
    && (if b[0].overlap then b[0].end == a[|a| - 1].end else a[|a| - 1].end <= b[0].start)
  }

  ghost predicate LinkAt(groups: seq<seq<TextSegment>>, i: int, cfg: ChunkingConfig) {
    && 0 <= i < |groups| - 1 && groups[i] != [] && groups[i + 1] != []
    && After(groups[i], groups[i + 1])
    && var next := FirstFresh(groups, i + 1);
       next.Some? && Handed(groups[i], groups[i + 1], next.value, cfg)
  }

  function FreshAll(groups: seq<seq<TextSegment>>): seq<TextSegment> {
    if groups == [] then [] else FreshAll(groups[..|groups| - 1]) + Fresh(groups[|groups| - 1])
  }

  /** `groups` packs exactly `segs`, each boundary forced by the limits. */
  ghost predicate Packs(groups: seq<seq<TextSegment>>, segs: seq<TextSegment>, cfg: ChunkingConfig) {
    && (forall i | 0 <= i < |groups| :: IsGroup(groups[i], cfg))
    && (forall i | 0 <= i < |groups| - 1 :: LinkAt(groups, i, cfg))
    && (groups != [] ==> !groups[0][0].overlap && Fresh(groups[|groups| - 1]) != [])
    && FreshAll(groups) == segs
  }

  lemma FreshAllSnoc(groups: seq<seq<TextSegment>>, group: seq<TextSegment>)
    ensures FreshAll(groups + [group]) == FreshAll(groups) + Fresh(group)
  {
    assert (groups + [group])[..|groups|] == groups;
  }

  lemma {:induction false} FirstFreshSnoc(groups: seq<seq<TextSegment>>, group: seq<TextSegment>, i: nat)
    requires i <= |groups|
    ensures FirstFresh(groups, i).Some? ==> FirstFresh(groups + [group], i) == FirstFresh(groups, i)
    ensures FirstFresh(groups, i).None? ==>
              FirstFresh(groups + [group], i) == if Fresh(group) == [] then None else Some(Fresh(group)[0])
    decreases |groups| - i
  {
    var all := groups + [group];
    if i < |groups| {
      assert all[i] == groups[i];
      FirstFreshSnoc(groups, group, i + 1);
    } else {
      assert all[i] == group && FirstFresh(all, i + 1) == None;
    }
  }

  // ---------------------------------------------------------------------------
  // Growing a packing by one segment
  // ---------------------------------------------------------------------------

  /** The next fresh segment, after everything in the group. */
  predicate NextFor(group: seq<TextSegment>, seg: TextSegment, cfg: ChunkingConfig) {
    && group != [] && group[|group| - 1].end <= seg.start
    && Clean(seg) && !seg.overlap && Sized(seg.text, cfg)
  }

  lemma PackFirst(seg: TextSegment, cfg: ChunkingConfig)
    requires Clean(seg) && !seg.overlap && Sized(seg.text, cfg)
    ensures Packs([[seg]], [seg], cfg)
  {
    hide Clean, Sized, JoinSegments, Handed, After;
    SingletonGroup(seg, cfg);
    FreshAllSnoc([], [seg]);
    assert [] + [[seg]] == [[seg]];
  }

  lemma GroupSnoc(group: seq<TextSegment>, seg: TextSegment, cfg: ChunkingConfig)
    requires IsGroup(group, cfg) && NextFor(group, seg, cfg) && Room(group + [seg], cfg)
    ensures IsGroup(group + [seg], cfg) && Fresh(group + [seg]) == Fresh(group) + [seg]
  {
    hide Clean, WithinLimits, LongWord, JoinSegments;
    var group' := group + [seg];
    assert forall i | 0 <= i < |group| :: group[i].end <= group[|group| - 1].end by {
      GroupEnds(group, cfg);
    }
    assert Fresh(group') == Fresh(group) + [seg];
  }

  lemma GroupEnds(group: seq<TextSegment>, cfg: ChunkingConfig)
    requires IsGroup(group, cfg)
    ensures forall i | 0 <= i < |group| :: group[0].start <= group[i].start && group[i].end <= group[|group| - 1].end
  {
    forall i | 0 <= i < |group| ensures group[0].start <= group[i].start && group[i].end <= group[|group| - 1].end {
      assert Clean(group[0]) && Clean(group[i]) && Clean(group[|group| - 1]);
      assert i > 0 ==> group[0].end <= group[i].start;
      assert i < |group| - 1 ==> group[i].end <= group[|group| - 1].start;
    }
  }

  /** A link survives whatever comes later. */
  lemma LinkSnoc(groups: seq<seq<TextSegment>>, group: seq<TextSegment>, i: int, cfg: ChunkingConfig)
    requires LinkAt(groups, i, cfg)
    ensures LinkAt(groups + [group], i, cfg)
  {
    hide Handed, After;
    FirstFreshSnoc(groups, group, i + 1);
    assert (groups + [group])[i] == groups[i] && (groups + [group])[i + 1] == groups[i + 1];
  }

  /** The new segment starts a group of its own, with or without an overlap before it. */
  lemma PackNew(groups: seq<seq<TextSegment>>, segs: seq<TextSegment>, group: seq<TextSegment>, seg: TextSegment, cfg: ChunkingConfig)
    requires groups != [] && Packs(groups, segs, cfg)
    requires IsGroup(group, cfg) && Fresh(group) == [seg]
    requires After(groups[|groups| - 1], group) && Handed(groups[|groups| - 1], group, seg, cfg)
    ensures Packs(groups + [group], segs + [seg], cfg)
  {
    hide AllClean, InOrder, IsFresh, Sized, JoinSegments, After, Handed, FreshAll, Fresh;
    GroupOf(groups, segs, |groups| - 1, cfg);
    var all, n := groups + [group], |groups|;
    FreshAllSnoc(groups, group);
    FirstFreshSnoc(groups, group, n);
    forall i | 0 <= i < n ensures LinkAt(all, i, cfg) {
      if i < n - 1 { LinkSnoc(groups, group, i, cfg); } else { assert all[i] == groups[n - 1] && all[i + 1] == group; }
    }
  }

  /** The overlap fits with nothing: it is left as a chunk of its own, and the long word follows. */
  lemma PackNewTwo(groups: seq<seq<TextSegment>>, segs: seq<TextSegment>, ov: TextSegment, seg: TextSegment, cfg: ChunkingConfig)
    requires groups != [] && Packs(groups, segs, cfg)
    requires Overlapping(groups[|groups| - 1], cfg) == Some(ov) && NextFor(groups[|groups| - 1], seg, cfg)
    requires !Room(groups[|groups| - 1] + [seg], cfg) && !Room([ov, seg], cfg) && !Room([seg], cfg)
    ensures Packs(groups + [[ov]] + [[seg]], segs + [seg], cfg)
  {
    hide Room, FreshAll, Overlapping, IsGroup, Clean, Handed, After, NextFor, LinkAt, FirstFresh;
    var n, mid, all := |groups|, groups + [[ov]], groups + [[ov]] + [[seg]];
    var last := groups[n - 1];
    GroupOf(groups, segs, n - 1, cfg);
    TwoHandOvers(last, ov, seg, cfg);
    FreshAllSnoc(groups, [ov]);
    FreshAllSnoc(mid, [seg]);
    assert FreshAll(all) == segs + [] + [seg];
    NoneFresh(groups, [ov]);
    FirstFreshSnoc(mid, [seg], n);
    NoneFresh(mid, []);
    FirstFreshSnoc(mid, [seg], n + 1);
    assert all[n - 1] == last && all[n] == [ov] && all[n + 1] == [seg];
    LinkFrom(all, n - 1, seg, cfg);
    LinkFrom(all, n, seg, cfg);
    OldLinks(groups, segs, [ov], [seg], cfg);
    forall i | 0 <= i < |all| - 1 ensures LinkAt(all, i, cfg) {
      if i < n - 1 { assert LinkAt(groups + [[ov]] + [[seg]], i, cfg); }
    }
  }

  lemma TwoHandOvers(last: seq<TextSegment>, ov: TextSegment, seg: TextSegment, cfg: ChunkingConfig)
    requires IsGroup(last, cfg) && Overlapping(last, cfg) == Some(ov) && NextFor(last, seg, cfg)
    requires !Room(last + [seg], cfg) && !Room([ov, seg], cfg) && !Room([seg], cfg)
    ensures ov.overlap && IsGroup([ov], cfg) && IsGroup([seg], cfg)
    ensures Fresh([ov]) == [] && Fresh([seg]) == [seg]
    ensures After(last, [ov]) && Handed(last, [ov], seg, cfg)
    ensures After([ov], [seg]) && Handed([ov], [seg], seg, cfg)
  {
    hide Room, Overlapping, Sized, Trimmed, JoinSegments;
    OverlapFacts(last, cfg);
    SingletonGroup(seg, cfg);
    assert [ov] + [seg] == [ov, seg];
  }

  lemma NoneFresh(groups: seq<seq<TextSegment>>, group: seq<TextSegment>)
    ensures FirstFresh(groups, |groups|) == None
    ensures group != [] && group[0].overlap && |group| == 1 ==> FirstFresh(groups + [group], |groups|) == None
  {
    if group != [] && group[0].overlap && |group| == 1 {
      FirstFreshSnoc(groups, group, |groups|);
      assert Fresh(group) == [];
    }
  }

  lemma LinkFrom(all: seq<seq<TextSegment>>, i: nat, next: TextSegment, cfg: ChunkingConfig)
    requires i + 1 < |all| && all[i] != [] && all[i + 1] != []
    requires After(all[i], all[i + 1]) && Handed(all[i], all[i + 1], next, cfg)
    requires FirstFresh(all, i + 1) == Some(next)
    ensures LinkAt(all, i, cfg)
  {
  }

  lemma GroupOf(groups: seq<seq<TextSegment>>, segs: seq<TextSegment>, i: nat, cfg: ChunkingConfig)
    requires Packs(groups, segs, cfg) && i < |groups|
    ensures IsGroup(groups[i], cfg)
  {
  }

  lemma OldLinks(groups: seq<seq<TextSegment>>, segs: seq<TextSegment>, a: seq<TextSegment>, b: seq<TextSegment>, cfg: ChunkingConfig)
    requires Packs(groups, segs, cfg)
    ensures forall i | 0 <= i < |groups| - 1 :: LinkAt(groups + [a] + [b], i, cfg)
  {
    forall i | 0 <= i < |groups| - 1 ensures LinkAt(groups + [a] + [b], i, cfg) {
      LinkSnoc(groups, a, i, cfg);
      LinkSnoc(groups + [a], b, i, cfg);
    }
  }

  /** The new segment joins the last group. */
  lemma PackStay(pre: seq<seq<TextSegment>>, last: seq<TextSegment>, segs: seq<TextSegment>, seg: TextSegment, cfg: ChunkingConfig)
    requires Packs(pre + [last], segs, cfg)
    requires NextFor(last, seg, cfg) && Room(last + [seg], cfg)
    ensures Packs(pre + [last + [seg]], segs + [seg], cfg)
  {
    hide FreshAll, Room, Sized, Clean, JoinSegments, InOrder, LinkAt, NextFor, AllClean, IsFresh;
    var n, last' := |pre|, last + [seg];
    var before, after := pre + [last], pre + [last'];
    assert before[n] == last && IsGroup(last, cfg);
    GroupSnoc(last, seg, cfg);
    FreshAllSnoc(pre, last);
    FreshAllSnoc(pre, last');
    assert FreshAll(pre) + (Fresh(last) + [seg]) == FreshAll(pre) + Fresh(last) + [seg];
    assert forall i | 0 <= i < n :: after[i] == before[i];
    assert after[n] == last';
    forall i | 0 <= i < n ensures LinkAt(after, i, cfg) {
      assert LinkAt(before, i, cfg) && IsGroup(before[i + 1], cfg);
      StayLink(pre, last, seg, i, cfg);
    }
  }

  /** The links to the groups before survive when the last group grows. */
  lemma StayLink(pre: seq<seq<TextSegment>>, last: seq<TextSegment>, seg: TextSegment, i: nat, cfg: ChunkingConfig)
    requires i < |pre| && LinkAt(pre + [last], i, cfg) && IsGroup((pre + [last])[i + 1], cfg)
    requires Fresh(last) != [] && Fresh(last + [seg]) == Fresh(last) + [seg] && NextFor(last, seg, cfg)
    ensures LinkAt(pre + [last + [seg]], i, cfg)
  {
    hide IsGroup, LinkAt, NextFor;
    FirstFreshSnoc(pre, last, i + 1);
    FirstFreshSnoc(pre, last + [seg], i + 1);
    LinkGrow(pre + [last], pre + [last + [seg]], i, seg, cfg);
  }

  lemma LinkGrow(before: seq<seq<TextSegment>>, after: seq<seq<TextSegment>>, i: nat, seg: TextSegment, cfg: ChunkingConfig)
    requires LinkAt(before, i, cfg) && i + 1 < |after| && after[i] == before[i]
    requires IsGroup(before[i + 1], cfg)
    requires after[i + 1] == before[i + 1] || (after[i + 1] == before[i + 1] + [seg] && Fresh(before[i + 1]) != [] && NextFor(before[i + 1], seg, cfg))
    requires FirstFresh(after, i + 1) == FirstFresh(before, i + 1)
    ensures LinkAt(after, i, cfg)
  {
    hide Room, Sized, JoinSegments, InOrder;
  }

  lemma PairGroup(prev: seq<TextSegment>, ov: TextSegment, seg: TextSegment, cfg: ChunkingConfig)
    requires IsGroup(prev, cfg) && Overlapping(prev, cfg) == Some(ov) && NextFor(prev, seg, cfg) && Room([ov, seg], cfg)
    ensures IsGroup([ov, seg], cfg) && Fresh([ov, seg]) == [seg] && After(prev, [ov, seg])
  {
    hide Room, Overlapping, Trimmed, WithinLimits, LongWord, JoinSegments;
    OverlapFacts(prev, cfg);
    assert [ov] + [seg] == [ov, seg];
    GroupSnoc([ov], seg, cfg);
    GroupSpan(prev, cfg);
  }

  lemma SingleAfter(prev: seq<TextSegment>, seg: TextSegment, cfg: ChunkingConfig)
    requires IsGroup(prev, cfg) && NextFor(prev, seg, cfg)
    ensures IsGroup([seg], cfg) && Fresh([seg]) == [seg] && After(prev, [seg])
  {
    hide Trimmed, JoinSegments;
    SingletonGroup(seg, cfg);
    GroupSpan(prev, cfg);
  }

  /** What the loop must do when the segment does not fit: every outcome of the flush is a packing. */
  lemma HandOver(pre: seq<seq<TextSegment>>, prev: seq<TextSegment>, segs: seq<TextSegment>, seg: TextSegment, cfg: ChunkingConfig)
    requires Packs(pre + [prev], segs, cfg) && NextFor(prev, seg, cfg) && !Room(prev + [seg], cfg)
    ensures Overlapping(prev, cfg) == None ==> Packs(pre + [prev] + [[seg]], segs + [seg], cfg)
    ensures Overlapping(prev, cfg).Some? ==>
              var ov := Overlapping(prev, cfg).value;
              && (Room([ov, seg], cfg) ==> Packs(pre + [prev] + [[ov, seg]], segs + [seg], cfg))
              && (!Room([ov, seg], cfg) && Room([seg], cfg) ==> Packs(pre + [prev] + [[seg]], segs + [seg], cfg))
              && (!Room([ov, seg], cfg) && !Room([seg], cfg) ==> Packs(pre + [prev] + [[ov]] + [[seg]], segs + [seg], cfg))
              && IsGroup([ov], cfg) && Overlapping([ov], cfg) == None
  {
    hide Packs, IsGroup, Overlapping, NextFor, Room, After, Fresh;
    var groups := pre + [prev];
    assert groups[|groups| - 1] == prev;
    GroupOf(groups, segs, |pre|, cfg);
    SingleAfter(prev, seg, cfg);
    match Overlapping(prev, cfg)
    case None => PackNew(groups, segs, [seg], seg, cfg);
    case Some(ov) =>
      OverlapFacts(prev, cfg);
      if Room([ov, seg], cfg) {
        PairGroup(prev, ov, seg, cfg);
        PackNew(groups, segs, [ov, seg], seg, cfg);
      } else if Room([seg], cfg) {
        PackNew(groups, segs, [seg], seg, cfg);
      } else {
        PackNewTwo(groups, segs, ov, seg, cfg);
      }
  }

  /** A group is never all overlap at the head of the loop. */
  lemma LastHasFresh(pre: seq<seq<TextSegment>>, last: seq<TextSegment>, segs: seq<TextSegment>, cfg: ChunkingConfig)
    requires Packs(pre + [last], segs, cfg)
    ensures last != [] && (exists i | 0 <= i < |last| :: !last[i].overlap)
    ensures JoinSegments(last) != "" && IsGroup(last, cfg)
  {
    hide Sized, JoinSegments, Clean;
    assert (pre + [last])[|pre|] == last && IsGroup(last, cfg);
    GroupText(last, cfg);
    assert Fresh(last) != [] && !Fresh(last)[0].overlap;
    assert Fresh(last)[0] == if last[0].overlap then last[1] else last[0];
  }

  lemma GroupText(group: seq<TextSegment>, cfg: ChunkingConfig)
    requires IsGroup(group, cfg)
    ensures JoinSegments(group) != "" && Words(JoinSegments(group)) == WordsOfAll(Texts(group))
  {
    JoinSegmentsOfClean(group);
  }
}
