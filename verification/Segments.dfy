/**
  Cutting a document into segments: paragraphs, then sentences, then greedy runs of
  words.  A segment remembers the range of the normalised text it was cut from.
 */
module Segments {
  import opened Text

  datatype TextSegment = TextSegment(text: string, start: int, end: int, overlap: bool)

  datatype ChunkingConfig = ChunkingConfig(maxChars: int, maxTokens: int, overlapChars: int, overlapTokens: int)

  function CountTokens(text: string): nat {
    |Words(text)|
  }

  predicate WithinLimits(text: string, maxChars: int, maxTokens: int) {
    |text| <= maxChars && CountTokens(text) <= maxTokens
  }

  /** What no splitting can make smaller: a single word longer than the limit. */
  predicate LongWord(text: string, maxChars: int) {
    |text| > maxChars && IsWord(text)
  }

  // ---------------------------------------------------------------------------
  // Normalisation
  // ---------------------------------------------------------------------------

  /** `text.replace("\r\n", "\n")`. */
  function ReplaceCrLf(s: string): (r: string)
    ensures |r| <= |s|
  {
    if |s| < 2 then s
    else if s[0] == '\r' && s[1] == '\n' then "\n" + ReplaceCrLf(s[2..])
    else [s[0]] + ReplaceCrLf(s[1..])
  }

  function NormalizeText(text: string): (r: string)
    ensures Trimmed(r) && |r| <= |text|
  {
    Strip(ReplaceCrLf(text))
  }

  predicate PairAt(s: string, i: int) {
    0 <= i < |s| - 1 && s[i] == '\r' && s[i + 1] == '\n'
  }

  /** Without the pair, nothing is replaced. */
  lemma {:induction false} NothingReplaced(s: string)
    requires forall i :: !PairAt(s, i)
    ensures ReplaceCrLf(s) == s
  {
    if |s| >= 2 {
      assert !PairAt(s, 0);
      forall i
        ensures !PairAt(s[1..], i)
      {
        assert !PairAt(s, i + 1);
      }
      NothingReplaced(s[1..]);
      assert s == [s[0]] + s[1..];
    }
  }

  lemma ReplaceOne(s: string)
    requires s != ""
    ensures PairAt(s, 0) ==> ReplaceCrLf(s) == "\n" + ReplaceCrLf(s[2..])
    ensures !PairAt(s, 0) ==> ReplaceCrLf(s) == [s[0]] + ReplaceCrLf(s[1..])
    ensures ReplaceCrLf("") == ""
  {
    if |s| == 1 {
      assert s[1..] == "";
    }
  }

  /** Every pair becomes one newline, and the text before and after it is treated on its own. */
  lemma {:induction false} PairReplaced(a: string, b: string)
    ensures ReplaceCrLf(a + "\r\n" + b) == ReplaceCrLf(a) + "\n" + ReplaceCrLf(b)
    decreases |a|
  {
    var s := a + "\r\n" + b;
    hide ReplaceCrLf;
    ReplaceOne(s);
    if a == "" {
      assert s[2..] == b && s[0] == '\r' && s[1] == '\n';
    } else {
      ReplaceOne(a);
      assert s[0] == a[0] && s[1] == (if |a| > 1 then a[1] else '\r');
      if PairAt(a, 0) {
        assert s[2..] == a[2..] + "\r\n" + b;
        PairReplaced(a[2..], b);
      } else {
        assert s[1..] == a[1..] + "\r\n" + b;
        PairReplaced(a[1..], b);
      }
    }
  }

  lemma {:induction false} ReplaceCrLfWord(s: string, e: nat)
    requires e <= |s| && forall k | 0 <= k < e :: !IsSpace(s[k])
    ensures ReplaceCrLf(s) == s[..e] + ReplaceCrLf(s[e..])
    decreases e
  {
    if e == 0 {
      assert s[0..] == s;
    } else if |s| == 1 {
    } else {
      ReplaceCrLfWord(s[1..], e - 1);
      assert s[1..][e - 1..] == s[e..];
      assert s[..e] == [s[0]] + s[1..][..e - 1];
    }
  }

  lemma {:induction false} WordsReplaceCrLf(s: string)
    ensures Words(ReplaceCrLf(s)) == Words(s)
    decreases |s|
  {
    if |s| < 2 {
    } else if s[0] == '\r' && s[1] == '\n' {
      WordsReplaceCrLf(s[2..]);
      assert s[1..][1..] == s[2..];
      assert ReplaceCrLf(s)[1..] == ReplaceCrLf(s[2..]);
    } else if IsSpace(s[0]) {
      WordsReplaceCrLf(s[1..]);
      assert ReplaceCrLf(s)[1..] == ReplaceCrLf(s[1..]);
    } else {
      var e := WordEnd(s, 0);
      ReplaceCrLfWord(s, e);
      WordsReplaceCrLf(s[e..]);
      var rest := ReplaceCrLf(s[e..]);
      WordsConcat(s[..e], rest);
      WordsOfWord(s[..e]);
    }
  }

  /** Normalising moves characters but keeps every word, in order. */
  lemma NormalizeKeepsWords(text: string)
    ensures Words(NormalizeText(text)) == Words(text)
  {
    WordsReplaceCrLf(text);
    WordsStrip(ReplaceCrLf(text));
  }

  lemma NormalizeTwiceDiffers()
    ensures NormalizeText("a\r\r\nb") == "a\r\nb"
    ensures NormalizeText(NormalizeText("a\r\r\nb")) == "a\nb"
  {
    NothingReplaced("a\r");
    NothingReplaced("a");
    NothingReplaced("b");
    PairReplaced("a\r", "b");
    PairReplaced("a", "b");
    hide ReplaceCrLf;
    assert "a\r" + "\r\n" + "b" == "a\r\r\nb" && "a" + "\r\n" + "b" == "a\r\nb";
    assert "a\r" + "\n" + "b" == "a\r\nb" && "a" + "\n" + "b" == "a\nb";
    StripTrimmed("a\r\nb");
    StripTrimmed("a\nb");
  }

  // ---------------------------------------------------------------------------
  // Tilings: segments cut out of a text, in order, with only whitespace between
  // ---------------------------------------------------------------------------

  /** The segment stands for the range [start, end) of `t` (shifted by `base`): same words, no ragged ends. */
  predicate StandsFor(seg: TextSegment, t: string, base: int) {
    && base <= seg.start < seg.end <= base + |t|
    && seg.text != "" && Trimmed(seg.text)
    && Words(seg.text) == Words(t[seg.start - base..seg.end - base])
    && !seg.overlap
  }

  predicate AllStandFor(segs: seq<TextSegment>, t: string, base: int) {
    forall i | 0 <= i < |segs| :: StandsFor(segs[i], t, base)
  }

  /** A fresh segment whose text is exactly the range it names. */
  predicate Exact(seg: TextSegment, t: string, base: int) {
    && base <= seg.start <= seg.end <= base + |t| && !seg.overlap
    && seg.text == t[seg.start - base..seg.end - base]
  }

  /** Position `at` does not fall inside a word of the text starting at `lo`. */
  predicate CleanCut(t: string, lo: nat, at: nat)
    requires at <= |t|
  {
    at <= lo || IsSpace(t[at - 1])
  }

  /** `segs` name ranges of `t[lo..hi]`, in order, with nothing but whitespace outside them. */
  predicate Tiles(segs: seq<TextSegment>, t: string, base: int, lo: nat, hi: nat)
    requires lo <= hi <= |t|
    decreases |segs|
  {
    if segs == [] then Gap(t, lo, hi)
    else
      var last := segs[|segs| - 1];
      && lo <= last.start - base < last.end - base <= hi
      && CleanCut(t, lo, last.start - base)
      && Gap(t, last.end - base, hi)
      && Tiles(segs[..|segs| - 1], t, base, lo, last.start - base)
  }

  function Texts(segs: seq<TextSegment>): (ts: seq<string>)
    ensures |ts| == |segs| && forall i | 0 <= i < |segs| :: ts[i] == segs[i].text
  {
    seq(|segs|, i requires 0 <= i < |segs| => segs[i].text)
  }

  /** A tiling holds exactly the words of the text it tiles, in order. */
  lemma {:induction false} TilesKeepWords(segs: seq<TextSegment>, t: string, base: int, lo: nat, hi: nat)
    requires lo <= hi <= |t|
    requires Tiles(segs, t, base, lo, hi) && AllStandFor(segs, t, base)
    ensures WordsOfAll(Texts(segs)) == Words(t[lo..hi])
    decreases |segs|
  {
    hide Words, IsSpace, CleanCut, Gap, AllSpace;
    if segs == [] {
      WordsOfGap(t, lo, hi);
    } else {
      TilesKeepWords(segs[..|segs| - 1], t, base, lo, segs[|segs| - 1].start - base);
      WordsOfLast(segs);
      WordsOfLastRange(segs[|segs| - 1], t, base, lo, hi);
    }
  }

  lemma WordsOfGap(t: string, lo: nat, hi: nat)
    requires lo <= hi <= |t| && Gap(t, lo, hi)
    ensures Words(t[lo..hi]) == []
  {
    WordsAllSpace(t[lo..hi]);
  }

  lemma WordsOfLastRange(last: TextSegment, t: string, base: int, lo: nat, hi: nat)
    requires lo <= last.start - base <= last.end - base <= hi <= |t| && StandsFor(last, t, base)
    requires CleanCut(t, lo, last.start - base) && Gap(t, last.end - base, hi)
    ensures Words(t[lo..hi]) == Words(t[lo..last.start - base]) + Words(last.text)
  {
    WordsAround(t, lo, last.start - base, last.end - base, hi);
  }

  lemma WordsOfLast(segs: seq<TextSegment>)
    requires segs != []
    ensures WordsOfAll(Texts(segs)) == WordsOfAll(Texts(segs[..|segs| - 1])) + Words(segs[|segs| - 1].text)
  {
    assert Texts(segs)[..|segs| - 1] == Texts(segs[..|segs| - 1]);
  }

  lemma WordsAround(t: string, lo: nat, a: nat, b: nat, hi: nat)
    requires lo <= a <= b <= hi <= |t| && CleanCut(t, lo, a) && Gap(t, b, hi)
    ensures Words(t[lo..hi]) == Words(t[lo..a]) + Words(t[a..b])
  {
    WordsAtCut(t, lo, a, hi);
    WordsBeforeGap(t, a, b, hi);
  }

  lemma WordsBeforeGap(t: string, a: nat, b: nat, hi: nat)
    requires a <= b <= hi <= |t| && Gap(t, b, hi)
    ensures Words(t[a..hi]) == Words(t[a..b])
  {
    assert t[a..hi][0..b - a] == t[a..b];
    WordsPadded(t[a..hi], 0, b - a);
  }

  lemma WordsAtCut(t: string, lo: nat, at: nat, hi: nat)
    requires lo <= at <= hi <= |t| && CleanCut(t, lo, at)
    ensures Words(t[lo..hi]) == Words(t[lo..at]) + Words(t[at..hi])
  {
    assert t[lo..hi] == t[lo..at] + t[at..hi];
    if lo < at { assert t[lo..at][at - lo - 1] == t[at - 1]; }
    WordsConcat(t[lo..at], t[at..hi]);
  }

  lemma {:induction false} TilesExtend(segs: seq<TextSegment>, t: string, base: int, lo: nat, mid: nat, hi: nat)
    requires lo <= mid <= hi <= |t|
    requires Tiles(segs, t, base, lo, mid) && Gap(t, mid, hi)
    ensures Tiles(segs, t, base, lo, hi)
  {
  }

  /** One more segment after a tiling. */
  lemma TilesSnoc(segs: seq<TextSegment>, seg: TextSegment, t: string, base: int, lo: nat, mid: nat, hi: nat)
    requires lo <= mid <= hi <= |t|
    requires Tiles(segs, t, base, lo, mid)
    requires mid <= seg.start - base < seg.end - base <= hi
    requires Gap(t, mid, seg.start - base) && Gap(t, seg.end - base, hi)
    requires CleanCut(t, lo, seg.start - base)
    ensures Tiles(segs + [seg], t, base, lo, hi)
  {
    TilesExtend(segs, t, base, lo, mid, seg.start - base);
    assert (segs + [seg])[..|segs|] == segs;
  }

  /** Two tilings of adjacent texts make one. */
  lemma {:induction false} TilesConcat(a: seq<TextSegment>, b: seq<TextSegment>, t: string, base: int, lo: nat, mid: nat, hi: nat)
    requires lo <= mid <= hi <= |t|
    requires Tiles(a, t, base, lo, mid) && Tiles(b, t, base, mid, hi) && CleanCut(t, lo, mid)
    ensures Tiles(a + b, t, base, lo, hi)
    decreases |b|
  {
    if b == [] {
      assert a + b == a;
      TilesExtend(a, t, base, lo, mid, hi);
    } else {
      var rest := b[..|b| - 1];
      TilesConcat(a, rest, t, base, lo, mid, b[|b| - 1].start - base);
      assert (a + b)[..|a + b| - 1] == a + rest;
    }
  }

  /** The part of a tiling before its `k`-th segment. */
  lemma {:induction false} TilesPrefix(segs: seq<TextSegment>, k: nat, t: string, base: int, lo: nat, hi: nat)
    requires lo <= hi <= |t| && k < |segs|
    requires Tiles(segs, t, base, lo, hi)
    ensures lo <= segs[k].start - base < segs[k].end - base <= hi
    ensures CleanCut(t, lo, segs[k].start - base)
    ensures Tiles(segs[..k], t, base, lo, segs[k].start - base)
    decreases |segs|
  {
    if k < |segs| - 1 {
      var rest := segs[..|segs| - 1];
      TilesPrefix(rest, k, t, base, lo, segs[|segs| - 1].start - base);
      assert rest[..k] == segs[..k];
    }
  }

  /** A tiling of a cut-out text is a tiling of the text it was cut from. */
  lemma {:induction false} TilesLift(segs: seq<TextSegment>, t: string, n: string, at: nat, base: int, lo: nat, hi: nat)
    requires at + |t| <= |n| && n[at..at + |t|] == t
    requires lo <= hi <= |t| && Tiles(segs, t, base + at, lo, hi)
    ensures Tiles(segs, n, base, at + lo, at + hi)
    decreases |segs|
  {
    hide IsSpace;
    if segs == [] {
      GapLift(t, n, at, lo, hi);
    } else {
      var last := segs[|segs| - 1];
      var a := last.start - base - at;
      TilesLift(segs[..|segs| - 1], t, n, at, base, lo, a);
      GapLift(t, n, at, last.end - base - at, hi);
      assert lo < a ==> n[at + a - 1] == n[at..at + |t|][a - 1];
    }
  }

  lemma GapLift(t: string, n: string, at: nat, lo: nat, hi: nat)
    requires at + |t| <= |n| && n[at..at + |t|] == t && hi <= |t| && Gap(t, lo, hi)
    ensures Gap(n, at + lo, at + hi)
  {
    hide IsSpace;
    forall k | at + lo <= k < at + hi ensures IsSpace(n[k]) {
      assert n[k] == n[at..at + |t|][k - at];
    }
  }

  lemma TilesLastGap(segs: seq<TextSegment>, t: string, base: int, lo: nat, hi: nat)
    requires lo <= hi <= |t| && Tiles(segs, t, base, lo, hi) && segs != []
    ensures base + lo <= segs[|segs| - 1].end <= base + hi && Gap(t, segs[|segs| - 1].end - base, hi)
  {
  }

  /** Where segment `b` starts, or where the tiled text ends. */
  function StartOf(segs: seq<TextSegment>, b: nat, base: int, hi: int): int
    requires b <= |segs|
  {
    if b < |segs| then segs[b].start - base else hi
  }

  /** Between two neighbours of a tiling there is only whitespace. */
  lemma GapAfter(segs: seq<TextSegment>, b: nat, t: string, base: int, lo: nat, hi: nat)
    requires lo <= hi <= |t| && Tiles(segs, t, base, lo, hi) && 0 < b <= |segs|
    ensures var at := StartOf(segs, b, base, hi);
            && lo <= segs[b - 1].end - base <= at <= hi && Gap(t, segs[b - 1].end - base, at)
            && (b < |segs| ==> CleanCut(t, lo, at))
  {
    if b < |segs| {
      TilesPrefix(segs, b, t, base, lo, hi);
      TilesLastGap(segs[..b], t, base, lo, segs[b].start - base);
    } else {
      TilesLastGap(segs, t, base, lo, hi);
    }
  }

  // ---------------------------------------------------------------------------
  // Parts of a split text
  // ---------------------------------------------------------------------------

  /** The segment left when a part starting at `position` is stripped. */
  function PartSegment(part: string, position: int): TextSegment {
    var start := position + (|part| - |LStrip(part)|);
    TextSegment(Strip(part), start, start + |Strip(part)|, false)
  }

  lemma PartPlace(part: string, t: string, base: int, from: nat, b: nat)
    requires from <= b <= |t| && t[from..b] == part && Strip(part) != ""
    ensures var seg := PartSegment(part, base + from);
            && base + from <= seg.start < seg.end <= base + b
            && Exact(seg, t, base) && Trimmed(seg.text)
            && Gap(t, from, seg.start - base) && Gap(t, seg.end - base, b)
            && (CleanCut(t, 0, from) ==> CleanCut(t, 0, seg.start - base))
  {
    hide Strip, LStrip, IsSpace;
    StripPlace(part);
    var lo, k := |part| - |LStrip(part)|, |Strip(part)|;
    SliceOfSlice(t, from, b, lo, lo + k);
    forall i | from <= i < b ensures t[i] == part[i - from] {}
  }

  lemma BlankPart(part: string, t: string, from: nat, b: nat)
    requires from <= b <= |t| && t[from..b] == part && Strip(part) == ""
    ensures Gap(t, from, b)
  {
    forall i | from <= i < b ensures IsSpace(t[i]) { assert t[i] == part[i - from]; }
  }
}
