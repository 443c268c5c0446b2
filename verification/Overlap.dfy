/**
  The words a chunk hands on to the next one: the longest suffix of its words that
  stays within the overlap limits, where a limit of zero means no limit.
 */
module Overlap {
  import opened Text
  import opened Segments
  import opened Splitting
  import opened Wrappers

  function Suffix(ws: seq<string>, k: nat): seq<string>
    requires k <= |ws|
  {
    ws[|ws| - k..]
  }

  /** The last `k` words are within the overlap limits. */
  predicate OverlapFits(ws: seq<string>, k: nat, cfg: ChunkingConfig)
    requires k <= |ws|
  {
    && (cfg.overlapTokens != 0 ==> k <= cfg.overlapTokens)
    && (cfg.overlapChars != 0 ==> |Join(Suffix(ws, k))| <= cfg.overlapChars)
  }

  /** How many words are carried over, given that the last `k` are. */
  function CarriedFrom(ws: seq<string>, cfg: ChunkingConfig, k: nat): (r: nat)
    requires k <= |ws|
    ensures k <= r <= |ws|
    decreases |ws| - k
  {
    if k < |ws| && OverlapFits(ws, k + 1, cfg) then CarriedFrom(ws, cfg, k + 1) else k
  }

  function Carried(ws: seq<string>, cfg: ChunkingConfig): (r: nat)
    ensures r <= |ws|
  {
    CarriedFrom(ws, cfg, 0)
  }

  lemma SuffixSuffix(ws: seq<string>, k: nat, j: nat)
    requires j <= k <= |ws|
    ensures Suffix(Suffix(ws, k), j) == Suffix(ws, j)
  {
    SliceOfSlice(ws, |ws| - k, |ws|, k - j, k);
  }

  /** A shorter suffix fits wherever a longer one does. */
  lemma OverlapFitsShorter(ws: seq<string>, j: nat, k: nat, cfg: ChunkingConfig)
    requires 0 < j <= k <= |ws| && OverlapFits(ws, k, cfg)
    ensures OverlapFits(ws, j, cfg)
  {
    SuffixSuffix(ws, k, j);
    JoinSubrange(Suffix(ws, k), k - j, k);
    assert Suffix(ws, k)[k - j..k] == Suffix(Suffix(ws, k), j);
  }

  lemma {:induction false} CarriedFromFits(ws: seq<string>, cfg: ChunkingConfig, k: nat)
    requires k <= |ws| && (k > 0 ==> OverlapFits(ws, k, cfg))
    ensures var c := CarriedFrom(ws, cfg, k);
            (c > 0 ==> OverlapFits(ws, c, cfg)) && (c < |ws| ==> !OverlapFits(ws, c + 1, cfg))
    decreases |ws| - k
  {
    if k < |ws| && OverlapFits(ws, k + 1, cfg) { CarriedFromFits(ws, cfg, k + 1); }
  }

  /** Exactly the suffixes up to `Carried` words fit: the overlap is the longest one allowed. */
  lemma CarriedIsLongest(ws: seq<string>, cfg: ChunkingConfig, j: nat)
    requires 0 < j <= |ws|
    ensures OverlapFits(ws, j, cfg) <==> j <= Carried(ws, cfg)
  {
    CarriedFromFits(ws, cfg, 0);
    var c := Carried(ws, cfg);
    if j <= c {
      OverlapFitsShorter(ws, j, c, cfg);
    } else if OverlapFits(ws, j, cfg) {
      OverlapFitsShorter(ws, c + 1, j, cfg);
    }
  }

  /** The overlap of a text: its carried words, single-spaced. */
  function OverlapOf(text: string, cfg: ChunkingConfig): string {
    Join(Suffix(Words(text), Carried(Words(text), cfg)))
  }

  lemma WordsOfOverlap(text: string, cfg: ChunkingConfig)
    ensures Words(OverlapOf(text, cfg)) == Suffix(Words(text), Carried(Words(text), cfg))
    ensures Trimmed(OverlapOf(text, cfg))
  {
    hide Carried, IsSpace, Join;
    var ws := Suffix(Words(text), Carried(Words(text), cfg));
    assert forall w | w in ws :: w in Words(text);
    WordsJoinWords(ws);
    JoinTrimmedWords(ws);
  }

  /** Taking the overlap of an overlap changes nothing. */
  lemma OverlapIdempotent(text: string, cfg: ChunkingConfig)
    ensures OverlapOf(OverlapOf(text, cfg), cfg) == OverlapOf(text, cfg)
  {
    hide Join, CarriedFrom, OverlapFits;
    var ws := Words(text);
    var k := Carried(ws, cfg);
    var s := Suffix(ws, k);
    WordsOfOverlap(text, cfg);
    if k > 0 {
      CarriedIsLongest(ws, cfg, k);
      CarriedIsLongest(s, cfg, k);
      SuffixFits(ws, k, cfg);
    }
    assert Carried(s, cfg) == k && Suffix(s, k) == s;
  }

  lemma SuffixFits(ws: seq<string>, k: nat, cfg: ChunkingConfig)
    requires k <= |ws| && OverlapFits(ws, k, cfg)
    ensures OverlapFits(Suffix(ws, k), k, cfg)
  {
    SuffixSuffix(ws, k, k);
  }

  /** A single word has no overlap to hand on: all of it or nothing. */
  lemma OverlapOfWord(w: string, cfg: ChunkingConfig)
    requires IsWord(w)
    ensures OverlapOf(w, cfg) == "" || OverlapOf(w, cfg) == w
  {
    WordsOfWord(w);
  }

  /** The overlap of a text is no longer, in characters or in words. */
  lemma OverlapNoLonger(text: string, cfg: ChunkingConfig)
    ensures |OverlapOf(text, cfg)| <= |text| && CountTokens(OverlapOf(text, cfg)) <= CountTokens(text)
  {
    hide Join, Words, Carried;
    var ws := Words(text);
    var k := Carried(ws, cfg);
    WordsOfOverlap(text, cfg);
    JoinWordsShorter(text);
    if k > 0 {
      JoinSubrange(ws, |ws| - k, |ws|);
      assert ws[|ws| - k..|ws|] == Suffix(ws, k);
    } else {
      NoWords(Suffix(ws, k));
    }
  }

  lemma NoWords(ws: seq<string>)
    requires ws == []
    ensures Join(ws) == ""
  {
  }

  lemma StripOverlap(text: string, cfg: ChunkingConfig)
    ensures Strip(OverlapOf(text, cfg)) == OverlapOf(text, cfg)
  {
    hide OverlapOf, Strip;
    WordsOfOverlap(text, cfg);
    StripTrimmed(OverlapOf(text, cfg));
  }

  lemma CarriedStep(ws: seq<string>, k: nat, cfg: ChunkingConfig)
    requires k < |ws|
    ensures [ws[|ws| - 1 - k]] + Suffix(ws, k) == Suffix(ws, k + 1)
    ensures CarriedFrom(ws, cfg, k) == if OverlapFits(ws, k + 1, cfg) then CarriedFrom(ws, cfg, k + 1) else k
  {
  }

  /** The loop from the last word backwards, until a limit is reached. */
  method OverlapText(text: string, cfg: ChunkingConfig) returns (r: string)
    ensures r == OverlapOf(text, cfg)
  {
    var words := Words(text);
    var overlapWords: seq<string> := [];
    for i := |words| downto 0
      invariant overlapWords == Suffix(words, |words| - i)
      invariant CarriedFrom(words, cfg, |words| - i) == Carried(words, cfg)
    {
      CarriedStep(words, |words| - 1 - i, cfg);
      var candidateWords := [words[i]] + overlapWords;
      var candidate := Join(candidateWords);
      if cfg.overlapTokens != 0 && |candidateWords| > cfg.overlapTokens {
        break;
      }
      if cfg.overlapChars != 0 && |candidate| > cfg.overlapChars {
        break;
      }
      overlapWords := candidateWords;
    }
    StripOverlap(text, cfg);
    r := Strip(Join(overlapWords));
  }
}
