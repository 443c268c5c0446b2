/** Texts put together from parts with colons between them, and when the parts can be told from the whole. */
module Keys {
  lemma FirstColon(a: string, b: string, x: string, y: string)
    requires ':' !in a && ':' !in b && a + ":" + x == b + ":" + y
    ensures a == b && x == y
  {
    var s := a + ":" + x;
    assert s[|a|] == ':' && s[|b|] == ':';
    FirstColonAt(a, b, x, y);
    assert s[..|a|] == a && s[..|b|] == b;
    assert s[|a| + 1..] == x && s[|b| + 1..] == y;
  }

  lemma FirstColonAt(a: string, b: string, x: string, y: string)
    requires ':' !in a && ':' !in b && a + ":" + x == b + ":" + y
    ensures |a| == |b|
  {
    var s := a + ":" + x;
    assert s[|a|] == ':' && s == b + ":" + y && s[|b|] == ':';
    assert forall i | 0 <= i < |a| :: s[i] == a[i];
    assert forall i | 0 <= i < |b| :: s[i] == b[i];
  }

  lemma ColonInside(x: string, y: string, a: string, b: string)
    requires x + ":" + a == y + ":" + b && |x| < |y|
    ensures ':' in a
  {
    var s := x + ":" + a;
    assert s[|y|] == (y + ":" + b)[|y|] == ':';
    assert s[|y|] == a[|y| - |x| - 1];
  }

  /** What follows the last colon is fixed by the whole string. */
  lemma TailAfterColon(x: string, y: string, a: string, b: string)
    requires ':' !in a && ':' !in b && x + ":" + a == y + ":" + b
    ensures a == b
  {
    if |x| < |y| {
      ColonInside(x, y, a, b);
    } else if |y| < |x| {
      ColonInside(y, x, b, a);
    } else {
      assert (x + ":" + a)[|x| + 1..] == a && (y + ":" + b)[|y| + 1..] == b;
    }
  }

  lemma SamePrefix(x: string, y: string, tail: string)
    requires x + tail == y + tail
    ensures x == y
  {
    assert |x| == |y|;
    assert (x + tail)[..|x|] == x && (y + tail)[..|y|] == y;
  }

  /** First, middle and last part: the outer ones, free of colons, and so the middle one are fixed by the whole. */
  lemma ThreeParts(a: string, x: string, p: string, b: string, y: string, q: string)
    requires ':' !in a && ':' !in b && ':' !in p && ':' !in q
    ensures a + ":" + x + ":" + p == b + ":" + y + ":" + q <==> a == b && x == y && p == q
  {
    if a + ":" + x + ":" + p == b + ":" + y + ":" + q {
      assert a + ":" + x + ":" + p == a + ":" + (x + ":" + p) && b + ":" + y + ":" + q == b + ":" + (y + ":" + q);
      FirstColon(a, b, x + ":" + p, y + ":" + q);
      TailAfterColon(x, y, p, q);
      assert x + ":" + p == x + (":" + p) && y + ":" + q == y + (":" + p);
      SamePrefix(x, y, ":" + p);
    }
  }

  /** What stands behind a fixed beginning is fixed by the whole. */
  lemma SameSuffix(head: string, x: string, y: string)
    ensures head + x == head + y <==> x == y
  {
    if head + x == head + y {
      assert (head + x)[|head|..] == x && (head + y)[|head|..] == y;
    }
  }
}
