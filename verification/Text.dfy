/**
  The Python string operations the chunker is built from: `str.split`, `str.strip`,
  `str.join`, `str.find`, and the laws that connect them.  Words are what
  `str.split()` returns; every law below is about which words survive an operation.
 */
module Text {

  /** Python's `str.isspace` table, shared by `split`, `strip` and the regex class `\s`. */
  predicate IsSpace(c: char) {
    var n := c as int;
    || 9 <= n <= 13 || 28 <= n <= 32 || n == 0x85 || n == 0xA0 || n == 0x1680
    || 0x2000 <= n <= 0x200A || n == 0x2028 || n == 0x2029 || n == 0x202F || n == 0x205F || n == 0x3000
  }

  predicate AllSpace(s: string) {
    forall i | 0 <= i < |s| :: IsSpace(s[i])
  }

  /** Nothing but whitespace in `s[lo..hi]`. */
  predicate Gap(s: string, lo: int, hi: int)
    requires 0 <= lo && hi <= |s|
  {
    forall k | lo <= k < hi :: IsSpace(s[k])
  }

  /** A word: non-empty and free of whitespace. */
  predicate IsWord(w: string) {
    w != "" && forall i | 0 <= i < |w| :: !IsSpace(w[i])
  }

  /** What `strip` leaves behind: empty, or non-space at both ends. */
  predicate Trimmed(s: string) {
    s != "" ==> !IsSpace(s[0]) && !IsSpace(s[|s| - 1])
  }

  // ---------------------------------------------------------------------------
  // Scanning
  // ---------------------------------------------------------------------------

  /** End of the run of non-space characters starting at `i`. */
  function WordEnd(s: string, i: nat): (e: nat)
    requires i <= |s|
    ensures i <= e <= |s|
    ensures forall k | i <= k < e :: !IsSpace(s[k])
    ensures e < |s| ==> IsSpace(s[e])
    decreases |s| - i
  {
    if i == |s| || IsSpace(s[i]) then i else WordEnd(s, i + 1)
  }

  /** End of the run of spaces starting at `i`. */
  function SpaceEnd(s: string, i: nat): (e: nat)
    requires i <= |s|
    ensures i <= e <= |s|
    ensures forall k | i <= k < e :: IsSpace(s[k])
    ensures e < |s| ==> !IsSpace(s[e])
    decreases |s| - i
  {
    if i == |s| || !IsSpace(s[i]) then i else SpaceEnd(s, i + 1)
  }

  /** Start of the run of spaces ending at `hi`, no lower than `lo`. */
  function SpaceStart(s: string, lo: nat, hi: nat): (e: nat)
    requires lo <= hi <= |s|
    ensures lo <= e <= hi
    ensures forall k | e <= k < hi :: IsSpace(s[k])
    ensures lo < e ==> !IsSpace(s[e - 1])
    decreases hi
  {
    if hi == lo || !IsSpace(s[hi - 1]) then hi else SpaceStart(s, lo, hi - 1)
  }

  lemma SliceOfSlice<T>(s: seq<T>, lo: nat, hi: nat, a: nat, b: nat)
    requires lo <= hi <= |s| && a <= b <= hi - lo
    ensures s[lo..hi][a..b] == s[lo + a..lo + b]
  {
    forall i | 0 <= i < b - a ensures s[lo..hi][a..b][i] == s[lo + a..lo + b][i] {
      assert s[lo..hi][a + i] == s[lo + a + i];
    }
  }

  /** `str.lstrip`. */
  function LStrip(s: string): string {
    s[SpaceEnd(s, 0)..]
  }

  /** `str.strip`. */
  function Strip(s: string): (r: string)
    ensures Trimmed(r)
    ensures |r| <= |s|
    ensures r == "" <==> AllSpace(s)
  {
    var lo := SpaceEnd(s, 0);
    var hi := SpaceStart(s, lo, |s|);
    s[lo..hi]
  }

  /** Where the stripped text stands inside the text. */
  lemma StripPlace(s: string)
    ensures var lo, k := |s| - |LStrip(s)|, |Strip(s)|;
            && 0 <= lo && (k > 0 ==> lo + k <= |s| && Strip(s) == s[lo..lo + k])
            && (k > 0 ==> Gap(s, 0, lo) && Gap(s, lo + k, |s|))
  {
  }

  lemma StripTrimmed(s: string)
    requires Trimmed(s)
    ensures Strip(s) == s
  {
  }

  predicate OccursAt(s: string, sub: string, k: int) {
    0 <= k && k + |sub| <= |s| && s[k..k + |sub|] == sub
  }

  /** `str.find(sub, from)`: the leftmost occurrence at or after `from`, or -1. */
  function Find(s: string, sub: string, from: nat): (r: int)
    ensures r == -1 || (from <= r && OccursAt(s, sub, r))
    decreases |s| - from
  {
    if from + |sub| > |s| then -1
    else if OccursAt(s, sub, from) then from
    else Find(s, sub, from + 1)
  }

  /** Skipping spaces, `find` meets a piece of text exactly where it was cut out. */
  lemma {:induction false} FindExact(s: string, sub: string, from: nat, at: nat)
    requires from <= at && OccursAt(s, sub, at)
    requires sub != "" && !IsSpace(sub[0])
    requires Gap(s, from, at)
    ensures Find(s, sub, from) == at
    decreases at - from
  {
    if from < at {
      assert !OccursAt(s, sub, from) by { NotAtSpace(s, sub, from); }
      FindExact(s, sub, from + 1, at);
    }
  }

  lemma NotAtSpace(s: string, sub: string, k: nat)
    requires k < |s| && IsSpace(s[k]) && sub != "" && !IsSpace(sub[0])
    ensures !OccursAt(s, sub, k)
  {
    assert k + |sub| <= |s| ==> s[k..k + |sub|][0] == s[k];
  }

  // ---------------------------------------------------------------------------
  // Words
  // ---------------------------------------------------------------------------

  /** `str.split()`. */
  function Words(s: string): (ws: seq<string>)
    ensures forall w | w in ws :: IsWord(w)
    decreases |s|
  {
    if s == "" then []
    else if IsSpace(s[0]) then Words(s[1..])
    else
      var e := WordEnd(s, 0);
      [s[..e]] + Words(s[e..])
  }

  /** The words of each text in turn. */
  function WordsOfAll(texts: seq<string>): seq<string> {
    if texts == [] then [] else WordsOfAll(texts[..|texts| - 1]) + Words(texts[|texts| - 1])
  }

  /** Splitting distributes over any concatenation that does not cut through a word. */
  lemma {:induction false} WordsConcat(a: string, b: string)
    requires a == "" || b == "" || IsSpace(a[|a| - 1]) || IsSpace(b[0])
    ensures Words(a + b) == Words(a) + Words(b)
    decreases |a|
  {
    var ab := a + b;
    if a == "" {
      assert ab == b;
    } else if b == "" {
      assert ab == a;
    } else if IsSpace(a[0]) {
      assert ab[1..] == a[1..] + b;
      WordsConcat(a[1..], b);
    } else {
      var e := WordEnd(a, 0);
      assert WordEnd(ab, 0) == e by {
        assert forall k | 0 <= k < |a| :: ab[k] == a[k];
        assert e < |a| || ab[e] == b[0];
      }
      assert ab[..e] == a[..e];
      assert ab[e..] == a[e..] + b;
      if e < |a| {
        WordsConcat(a[e..], b);
      } else {
        assert a[e..] == "";
      }
    }
  }

  lemma {:induction false} WordsAllSpace(s: string)
    requires AllSpace(s)
    ensures Words(s) == []
    decreases |s|
  {
    if s != "" { WordsAllSpace(s[1..]); }
  }

  lemma WordsOfWord(w: string)
    requires IsWord(w)
    ensures Words(w) == [w]
  {
    assert WordEnd(w, 0) == |w|;
    assert w[..|w|] == w && w[|w|..] == "";
  }

  /** Whitespace around a text holds no words. */
  lemma WordsPadded(s: string, lo: nat, hi: nat)
    requires lo <= hi <= |s|
    requires Gap(s, 0, lo) && Gap(s, hi, |s|)
    ensures Words(s) == Words(s[lo..hi])
  {
    assert AllSpace(s[..lo]) && AllSpace(s[hi..]);
    assert s == s[..lo] + (s[lo..hi] + s[hi..]);
    if lo > 0 { assert IsSpace(s[..lo][lo - 1]); }
    if hi < |s| { assert IsSpace(s[hi..][0]); }
    WordsConcat(s[..lo], s[lo..hi] + s[hi..]);
    WordsConcat(s[lo..hi], s[hi..]);
    WordsAllSpace(s[..lo]);
    WordsAllSpace(s[hi..]);
  }

  lemma WordsStrip(s: string)
    ensures Words(Strip(s)) == Words(s)
  {
    var lo := SpaceEnd(s, 0);
    WordsPadded(s, lo, SpaceStart(s, lo, |s|));
  }

  lemma {:induction false} WordsNonEmpty(s: string)
    requires !AllSpace(s)
    ensures Words(s) != []
    decreases |s|
  {
    if IsSpace(s[0]) {
      assert !AllSpace(s[1..]);
      WordsNonEmpty(s[1..]);
    }
  }

  lemma {:induction false} WordsOfAllConcat(a: seq<string>, b: seq<string>)
    ensures WordsOfAll(a + b) == WordsOfAll(a) + WordsOfAll(b)
    decreases |b|
  {
    if b == [] {
      assert a + b == a;
    } else {
      var rest := b[..|b| - 1];
      assert (a + b)[..|a + b| - 1] == a + rest;
      WordsOfAllConcat(a, rest);
    }
  }

  // ---------------------------------------------------------------------------
  // Joining
  // ---------------------------------------------------------------------------

  /** `" ".join(texts)`. */
  function Join(texts: seq<string>): string {
    if texts == [] then ""
    else if |texts| == 1 then texts[0]
    else Join(texts[..|texts| - 1]) + " " + texts[|texts| - 1]
  }

  lemma JoinOne(t: string)
    ensures Join([t]) == t
  {
  }

  lemma JoinSnoc(texts: seq<string>, t: string)
    requires texts != []
    ensures Join(texts + [t]) == Join(texts) + " " + t
  {
    assert (texts + [t])[..|texts|] == texts;
  }

  lemma {:induction false} JoinConcat(a: seq<string>, b: seq<string>)
    requires a != [] && b != []
    ensures Join(a + b) == Join(a) + " " + Join(b)
    decreases |b|
  {
    var rest, t := b[..|b| - 1], b[|b| - 1];
    assert b == rest + [t];
    if rest == [] {
      JoinSnoc(a, t);
    } else {
      JoinConcat(a, rest);
      assert a + b == (a + rest) + [t];
      JoinSnoc(a + rest, t);
      assert Join(a + b) == Join(a) + " " + (Join(rest) + " " + t);
    }
  }

  /** Joining texts and splitting again gives back the words of the texts, in order. */
  lemma {:induction false} WordsJoin(texts: seq<string>)
    ensures Words(Join(texts)) == WordsOfAll(texts)
    decreases |texts|
  {
    if |texts| == 1 {
      assert texts[..0] == [];
    } else if texts != [] {
      var rest, t := texts[..|texts| - 1], texts[|texts| - 1];
      WordsJoin(rest);
      WordsConcat(Join(rest) + " ", t);
      WordsConcat(Join(rest), " ");
      WordsAllSpace(" ");
    }
  }

  lemma {:induction false} WordsOfWords(ws: seq<string>)
    requires forall w | w in ws :: IsWord(w)
    ensures WordsOfAll(ws) == ws
    decreases |ws|
  {
    if ws != [] {
      WordsOfWords(ws[..|ws| - 1]);
      WordsOfWord(ws[|ws| - 1]);
    }
  }

  /** Words survive joining: `" ".join(ws).split() == ws`. */
  lemma WordsJoinWords(ws: seq<string>)
    requires forall w | w in ws :: IsWord(w)
    ensures Words(Join(ws)) == ws
  {
    WordsJoin(ws);
    WordsOfWords(ws);
  }

  lemma {:induction false} JoinTrimmed(texts: seq<string>)
    requires forall t | t in texts :: t != "" && Trimmed(t)
    ensures Trimmed(Join(texts))
    ensures texts != [] ==> Join(texts) != ""
    decreases |texts|
  {
    if |texts| > 1 {
      var rest := texts[..|texts| - 1];
      assert forall t | t in rest :: t in texts;
      JoinTrimmed(rest);
      assert texts[|texts| - 1] in texts;
    }
  }

  lemma JoinTrimmedWords(ws: seq<string>)
    requires forall i | 0 <= i < |ws| :: IsWord(ws[i])
    ensures Trimmed(Join(ws)) && (ws != [] ==> Join(ws) != "")
  {
    forall w | w in ws ensures w != "" && Trimmed(w) {
      assert IsWord(w);
    }
    JoinTrimmed(ws);
  }

  /** A run of consecutive texts joins to no more characters than the whole. */
  lemma JoinSubrange(texts: seq<string>, lo: nat, hi: nat)
    requires lo < hi <= |texts|
    ensures |Join(texts[lo..hi])| <= |Join(texts)|
  {
    var pre, mid, post := texts[..lo], texts[lo..hi], texts[hi..];
    assert texts == pre + mid + post;
    if post != [] { JoinConcat(pre + mid, post); }
    if pre != [] { JoinConcat(pre, mid); }
    assert pre == [] ==> pre + mid == mid;
    assert post == [] ==> texts == pre + mid;
  }

  /** Single-spacing a text never makes it longer. */
  lemma {:induction false} JoinWordsShorter(s: string)
    ensures |Join(Words(s))| <= |s|
    decreases |s|
  {
    if s == "" {
    } else if IsSpace(s[0]) {
      JoinWordsShorter(s[1..]);
    } else {
      var e := WordEnd(s, 0);
      var rest := Words(s[e..]);
      if rest != [] {
        assert IsSpace(s[e..][0]);
        assert rest == Words(s[e..][1..]);
        JoinWordsShorter(s[e..][1..]);
        JoinConcat([s[..e]], rest);
      } else {
        assert Words(s) == [s[..e]];
      }
    }
  }
}
