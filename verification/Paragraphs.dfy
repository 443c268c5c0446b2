/**
  Paragraphs: the text between blank lines, found by splitting on `\n\s*\n`
  and tracking how far into the text each part starts.
 */
module Paragraphs {
  import opened Text
  import opened Segments

  /** `s[i..j]` matches `\n\s*\n`. */
  predicate BlankLineAt(s: string, i: int, j: int) {
    && 0 <= i && i + 2 <= j <= |s|
    && s[i] == '\n' && s[j - 1] == '\n'
    && Gap(s, i, j)
  }

  predicate BlankLineIn(s: string, lo: int, hi: int) {
    exists i, j | lo <= i < j <= hi :: BlankLineAt(s, i, j)
  }

  /** Start of the last newline in `s[lo..hi]`, or `lo - 1`. */
  function LastNewline(s: string, lo: nat, hi: nat): (k: int)
    requires lo <= hi <= |s|
    ensures lo - 1 <= k < hi && (lo <= k ==> s[k] == '\n')
    decreases hi
  {
    if hi == lo then lo - 1 else if s[hi - 1] == '\n' then hi - 1 else LastNewline(s, lo, hi - 1)
  }

  lemma {:induction false} LastNewlineIsLast(s: string, lo: nat, hi: nat, i: nat)
    requires lo <= i < hi <= |s| && s[i] == '\n'
    ensures i <= LastNewline(s, lo, hi)
    decreases hi
  {
    if i < hi - 1 { LastNewlineIsLast(s, lo, hi - 1, i); }
  }

  /** Where the match of `\n\s*\n` starting at `i` ends; `i` itself when there is none. */
  function BlankLineEnd(s: string, i: nat): (e: nat)
    requires i <= |s|
    ensures e == i || BlankLineAt(s, i, e)
  {
    if i == |s| || s[i] != '\n' then i
    else
      var k := LastNewline(s, i + 1, SpaceEnd(s, i + 1));
      if k == i then i else k + 1
  }

  /** The match is the longest one. */
  lemma BlankLineEndIsLongest(s: string, i: nat, j: nat)
    requires BlankLineAt(s, i, j)
    ensures i < j <= BlankLineEnd(s, i)
  {
    assert j <= SpaceEnd(s, i + 1);
    LastNewlineIsLast(s, i + 1, SpaceEnd(s, i + 1), j - 1);
  }

  /** Start of the leftmost match at or after `i`, or the end of the text. */
  function NextBlankLine(s: string, i: nat): (b: nat)
    requires i <= |s|
    ensures i <= b <= |s|
    ensures b < |s| ==> BlankLineEnd(s, b) > b
    ensures forall k | i <= k < b :: BlankLineEnd(s, k) == k
    decreases |s| - i
  {
    if i == |s| || BlankLineEnd(s, i) > i then i else NextBlankLine(s, i + 1)
  }

  /** Text can start here: not inside a word, and not at a newline, which would have joined the separator. */
  predicate TextStart(s: string, at: nat) {
    at <= |s| && CleanCut(s, 0, at) && (at < |s| ==> s[at] != '\n')
  }

  /** The pieces of `re.split(r"(\n\s*\n)", s)`: at even places text without a match, at odd places a longest match. */
  ghost predicate PartAt(s: string, part: string, lo: nat, hi: nat, inText: bool) {
    && lo <= hi <= |s| && part == s[lo..hi]
    && if inText then hi == NextBlankLine(s, lo) && TextStart(s, lo)
       else lo < hi == BlankLineEnd(s, lo)
  }

  ghost predicate PartsOf(s: string, parts: seq<string>, cuts: seq<nat>) {
    && |cuts| == |parts| + 1 && cuts[0] == 0
    && forall k | 0 <= k < |parts| :: PartAt(s, parts[k], cuts[k], cuts[k + 1], k % 2 == 0)
  }

  lemma NoParts(s: string)
    ensures PartsOf(s, [], [0])
    ensures s == "" || s[0] != '\n' ==> TextStart(s, 0)
  {
  }

  lemma PartsSnoc(s: string, parts: seq<string>, cuts: seq<nat>, part: string, hi: nat)
    requires PartsOf(s, parts, cuts) && hi <= |s|
    requires var lo := cuts[|parts|];
             && lo <= hi && part == s[lo..hi]
             && if |parts| % 2 == 0 then hi == NextBlankLine(s, lo) && TextStart(s, lo)
                else lo < hi == BlankLineEnd(s, lo)
    ensures PartsOf(s, parts + [part], cuts + [hi])
  {
    hide NextBlankLine, BlankLineEnd, TextStart;
  }

  lemma AfterSeparator(s: string, from: nat, lo: nat, hi: nat)
    requires from <= |s| && NextBlankLine(s, from) == lo < |s| && hi == BlankLineEnd(s, lo)
    ensures lo < hi && TextStart(s, hi)
  {
    if hi < |s| && s[hi] == '\n' {
      BlankLineEndIsLongest(s, lo, hi + 1);
    }
  }

  method SplitOnBlankLines(s: string) returns (parts: seq<string>, ghost cuts: seq<nat>)
    requires s == "" || s[0] != '\n'
    ensures |cuts| == |parts| + 1 && cuts[0] == 0 && cuts[|parts|] == |s|
    ensures PartsOf(s, parts, cuts)
  {
    hide *;
    parts, cuts := [], [0];
    ghost var pairs := 0;
    var from := 0;
    NoParts(s);
    while true
      invariant |parts| == 2 * pairs && |cuts| == |parts| + 1 && cuts[0] == 0 && cuts[|parts|] == from <= |s|
      invariant PartsOf(s, parts, cuts) && TextStart(s, from)
      decreases |s| - from
    {
      var b := NextBlankLine(s, from);
      PartsSnoc(s, parts, cuts, s[from..b], b);
      parts, cuts := parts + [s[from..b]], cuts + [b];
      if b == |s| {
        return;
      }
      var e := BlankLineEnd(s, b);
      AfterSeparator(s, from, b, e);
      PartsSnoc(s, parts, cuts, s[b..e], e);
      parts, cuts := parts + [s[b..e]], cuts + [e];
      from, pairs := e, pairs + 1;
    }
  }

  /** Paragraphs are maximal: none holds a blank line, and a blank line separates each from the next. */
  predicate AreParagraphs(segs: seq<TextSegment>, n: string) {
    segs != [] ==>
      var rest, last := segs[..|segs| - 1], segs[|segs| - 1];
      && Exact(last, n, 0) && Trimmed(last.text) && !BlankLineIn(n, last.start, last.end)
      && (rest != [] ==> BlankLineIn(n, rest[|rest| - 1].end, last.start))
      && AreParagraphs(rest, n)
  }

  lemma NoBlankLine(n: string, from: nat, lo: nat, hi: nat)
    requires from <= lo <= hi <= |n| && hi <= NextBlankLine(n, from)
    ensures !BlankLineIn(n, lo, hi)
  {
    if i, j :| lo <= i < j <= hi && BlankLineAt(n, i, j) {
      BlankLineEndIsLongest(n, i, j);
    }
  }

  /** The paragraphs found in `n[..position]`; before a text part, a blank line follows the last one. */
  ghost predicate Found(paragraphs: seq<TextSegment>, n: string, position: int, inText: bool) {
    && 0 <= position <= |n|
    && Tiles(paragraphs, n, 0, 0, position) && AreParagraphs(paragraphs, n)
    && (inText && paragraphs != [] ==> BlankLineIn(n, paragraphs[|paragraphs| - 1].end, position))
  }

  lemma FoundSeparator(paragraphs: seq<TextSegment>, n: string, from: nat, e: nat)
    requires Found(paragraphs, n, from, false) && BlankLineAt(n, from, e)
    ensures Found(paragraphs, n, e, true)
  {
    TilesExtend(paragraphs, n, 0, 0, from, e);
  }

  lemma FoundBlank(paragraphs: seq<TextSegment>, part: string, n: string, from: nat, b: nat)
    requires PartAt(n, part, from, b, true) && Found(paragraphs, n, from, true) && Strip(part) == ""
    ensures Found(paragraphs, n, b, false)
  {
    BlankPart(part, n, from, b);
    TilesExtend(paragraphs, n, 0, 0, from, b);
  }

  lemma FoundText(paragraphs: seq<TextSegment>, part: string, n: string, from: nat, b: nat)
    requires PartAt(n, part, from, b, true) && Found(paragraphs, n, from, true) && Strip(part) != ""
    ensures Found(paragraphs + [PartSegment(part, from)], n, b, false)
  {
    hide IsSpace, Strip, LStrip, BlankLineAt, NextBlankLine;
    var seg := PartSegment(part, from);
    PartPlace(part, n, 0, from, b);
    TilesSnoc(paragraphs, seg, n, 0, 0, from, b);
    NoBlankLine(n, from, seg.start, seg.end);
    assert paragraphs != [] ==> BlankLineIn(n, paragraphs[|paragraphs| - 1].end, seg.start);
    assert (paragraphs + [seg])[..|paragraphs|] == paragraphs;
  }

  /** Reading one part adds its stripped text as a paragraph, unless it is a separator or blank. */
  lemma PartStep(paragraphs: seq<TextSegment>, part: string, n: string, position: nat, to: nat, inText: bool)
    requires PartAt(n, part, position, to, inText) && Found(paragraphs, n, position, inText)
    ensures to == position + |part|
    ensures part == "" || part[0] == '\n' || Strip(part) == "" ==> Found(paragraphs, n, to, !inText)
    ensures part != "" && part[0] != '\n' && Strip(part) != "" ==>
              Found(paragraphs + [PartSegment(part, position)], n, to, !inText)
  {
    if !inText {
      FoundSeparator(paragraphs, n, position, to);
    } else if Strip(part) == "" {
      FoundBlank(paragraphs, part, n, position, to);
    } else {
      FoundText(paragraphs, part, n, position, to);
    }
  }

  lemma PartOf(n: string, parts: seq<string>, cuts: seq<nat>, k: nat)
    requires PartsOf(n, parts, cuts) && k < |parts|
    ensures k + 1 < |cuts| && PartAt(n, parts[k], cuts[k], cuts[k + 1], k % 2 == 0)
  {
  }

  lemma FoundNone(n: string)
    ensures Found([], n, 0, true)
  {
  }

  lemma FoundAll(paragraphs: seq<TextSegment>, n: string, inText: bool)
    requires Found(paragraphs, n, |n|, inText)
    ensures Tiles(paragraphs, n, 0, 0, |n|) && AreParagraphs(paragraphs, n)
  {
  }

  /** The paragraphs of the normalised text, each exactly the range it names. */
  method SplitParagraphs(text: string) returns (paragraphs: seq<TextSegment>)
    ensures var n := NormalizeText(text);
            Tiles(paragraphs, n, 0, 0, |n|) && AreParagraphs(paragraphs, n)
  {
    var normalized := NormalizeText(text);
    if normalized == "" {
      return [];
    }
    paragraphs := CollectParagraphs(normalized);
  }

  /** The loop over the split parts, for a non-empty normalised text. */
  method CollectParagraphs(n: string) returns (paragraphs: seq<TextSegment>)
    requires n != "" && Trimmed(n)
    ensures Tiles(paragraphs, n, 0, 0, |n|) && AreParagraphs(paragraphs, n)
  {
    hide *;
    paragraphs := [];
    var position := 0;
    NoNewlineFirst(n);
    var parts, cuts := SplitOnBlankLines(n);
    ghost var inText := true;
    FoundNone(n);
    for k := 0 to |parts|
      invariant |cuts| == |parts| + 1 && position == cuts[k] && inText == (k % 2 == 0)
      invariant Found(paragraphs, n, position, inText)
    {
      var part := parts[k];
      PartOf(n, parts, cuts, k);
      PartStep(paragraphs, part, n, position, cuts[k + 1], inText);
      inText := !inText;
      if part == "" {
        assert Found(paragraphs, n, cuts[k + 1], inText);
        continue;
      }
      if part[0] == '\n' {
        position := position + |part|;
        assert Found(paragraphs, n, position, inText);
        continue;
      }
      if Strip(part) != "" {
        paragraphs := paragraphs + [PartSegment(part, position)];
      }
      position := position + |part|;
      assert Found(paragraphs, n, position, inText);
    }
    FoundAll(paragraphs, n, inText);
  }

  lemma NoNewlineFirst(n: string)
    requires n != "" && Trimmed(n)
    ensures n[0] != '\n'
  {
  }
}
