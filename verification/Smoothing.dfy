/**
  Exponential smoothing over the reals: the recurrence behind the moving average, the relative
  strength index and the EWMA baseline, what it stays between, and how fast it forgets.
 */
module Smoothing {
  // ---------------------------------------------------------------------------
  // Sums and means
  // ---------------------------------------------------------------------------

  function Sum(xs: seq<real>): real {
    if xs == [] then 0.0 else Sum(xs[..|xs| - 1]) + xs[|xs| - 1]
  }

  function Mean(xs: seq<real>): real
    requires xs != []
  {
    Sum(xs) / |xs| as real
  }

  predicate Between(xs: seq<real>, lo: real, hi: real) {
    forall i | 0 <= i < |xs| :: lo <= xs[i] <= hi
  }

  lemma {:induction false} SumBetween(xs: seq<real>, lo: real, hi: real)
    requires Between(xs, lo, hi)
    ensures |xs| as real * lo <= Sum(xs) <= |xs| as real * hi
  {
    if xs != [] {
      var n := |xs| - 1;
      SumBetween(xs[..n], lo, hi);
      assert |xs| as real == n as real + 1.0;
      assert (n as real + 1.0) * lo == n as real * lo + lo;
      assert (n as real + 1.0) * hi == n as real * hi + hi;
    }
  }

  lemma Nonnegative(x: real, y: real)
    requires x >= 0.0 && y >= 0.0
    ensures x * y >= 0.0
  {
  }

  lemma CancelFactor(x: real, y: real, n: real)
    requires n > 0.0 && x * n <= y * n
    ensures x <= y
  {
    if x > y {
      Positive(x - y, n);
    }
  }

  lemma Positive(x: real, n: real)
    requires x > 0.0 && n > 0.0
    ensures x * n > 0.0
  {
  }

  lemma DivideBetween(s: real, n: real, lo: real, hi: real)
    requires n > 0.0 && n * lo <= s <= n * hi
    ensures lo <= s / n <= hi
  {
    assert s / n * n == s;
    CancelFactor(lo, s / n, n);
    CancelFactor(s / n, hi, n);
  }

  lemma MeanBetween(xs: seq<real>, lo: real, hi: real)
    requires xs != [] && Between(xs, lo, hi)
    ensures lo <= Mean(xs) <= hi
  {
    SumBetween(xs, lo, hi);
    DivideBetween(Sum(xs), |xs| as real, lo, hi);
  }

  function Product(k: real, x: real): real {
    k * x
  }

  function Scaled(xs: seq<real>, k: real): (ys: seq<real>)
    ensures |ys| == |xs|
  {
    if xs == [] then [] else Scaled(xs[..|xs| - 1], k) + [Product(k, xs[|xs| - 1])]
  }

  lemma {:induction false} ScaledAt(xs: seq<real>, k: real, i: nat)
    requires i < |xs|
    ensures Scaled(xs, k)[i] == Product(k, xs[i])
  {
    if i < |xs| - 1 {
      ScaledAt(xs[..|xs| - 1], k, i);
    }
  }

  lemma ScaledSlices(xs: seq<real>, k: real, w: nat)
    requires w <= |xs|
    ensures Scaled(xs, k)[..w] == Scaled(xs[..w], k)
    ensures Scaled(xs, k)[w..] == Scaled(xs[w..], k)
  {
    forall i | 0 <= i < w
      ensures Scaled(xs, k)[i] == Scaled(xs[..w], k)[i]
    {
      ScaledAt(xs, k, i);
      ScaledAt(xs[..w], k, i);
    }
    forall i | 0 <= i < |xs| - w
      ensures Scaled(xs, k)[w..][i] == Scaled(xs[w..], k)[i]
    {
      ScaledAt(xs, k, w + i);
      ScaledAt(xs[w..], k, i);
    }
  }

  lemma {:induction false} SumScaled(xs: seq<real>, k: real)
    ensures Sum(Scaled(xs, k)) == k * Sum(xs)
  {
    if xs != [] {
      SumScaled(xs[..|xs| - 1], k);
    }
  }

  lemma MeanScaled(xs: seq<real>, k: real)
    requires xs != []
    ensures Mean(Scaled(xs, k)) == k * Mean(xs)
  {
    hide Sum, Scaled;
    SumScaled(xs, k);
    FactorOut(k, Sum(xs), |xs| as real);
  }

  lemma FactorOut(k: real, s: real, n: real)
    requires n > 0.0
    ensures k * s / n == k * (s / n)
  {
  }

  // ---------------------------------------------------------------------------
  // The recurrence
  // ---------------------------------------------------------------------------

  /** The next average: the new value weighs `alpha`, what came before the rest. */
  function Mix(alpha: real, x: real, y: real): real {
    alpha * x + (1.0 - alpha) * y
  }

  /** Starting from `start`, each value pulls the average towards itself by the factor `alpha`. */
  function Smooth(start: real, xs: seq<real>, alpha: real): real {
    if xs == [] then start
    else Mix(alpha, xs[|xs| - 1], Smooth(start, xs[..|xs| - 1], alpha))
  }

  function Pow(x: real, n: nat): real {
    if n == 0 then 1.0 else Product(x, Pow(x, n - 1))
  }

  lemma {:induction false} PowBetween(x: real, n: nat)
    requires 0.0 <= x <= 1.0
    ensures 0.0 <= Pow(x, n) <= 1.0
  {
    if n > 0 {
      PowBetween(x, n - 1);
      Shrinks(x, Pow(x, n - 1));
    }
  }

  lemma Shrinks(x: real, p: real)
    requires 0.0 <= x <= 1.0 && 0.0 <= p
    ensures 0.0 <= x * p <= p
  {
    assert p - x * p == (1.0 - x) * p;
  }

  lemma Blend(alpha: real, x: real, y: real, lo: real, hi: real)
    requires 0.0 <= alpha <= 1.0 && lo <= x <= hi && lo <= y <= hi
    ensures lo <= Mix(alpha, x, y) <= hi
  {
    Nonnegative(alpha, x - lo);
    Nonnegative(1.0 - alpha, y - lo);
    Nonnegative(alpha, hi - x);
    Nonnegative(1.0 - alpha, hi - y);
    assert alpha * x + (1.0 - alpha) * y - lo == alpha * (x - lo) + (1.0 - alpha) * (y - lo);
    assert hi - (alpha * x + (1.0 - alpha) * y) == alpha * (hi - x) + (1.0 - alpha) * (hi - y);
  }

  /** Smoothing never leaves the range of what goes in. */
  lemma {:induction false} SmoothBetween(start: real, xs: seq<real>, alpha: real, lo: real, hi: real)
    requires 0.0 <= alpha <= 1.0 && lo <= start <= hi && Between(xs, lo, hi)
    ensures lo <= Smooth(start, xs, alpha) <= hi
  {
    if xs != [] {
      var n := |xs| - 1;
      SmoothBetween(start, xs[..n], alpha, lo, hi);
      Blend(alpha, xs[n], Smooth(start, xs[..n], alpha), lo, hi);
    }
  }

  lemma {:induction false} SmoothConcat(start: real, a: seq<real>, b: seq<real>, alpha: real)
    ensures Smooth(start, a + b, alpha) == Smooth(Smooth(start, a, alpha), b, alpha)
  {
    if b == [] {
      assert a + b == a;
    } else {
      assert (a + b)[..|a + b| - 1] == a + b[..|b| - 1];
      SmoothConcat(start, a, b[..|b| - 1], alpha);
    }
  }

  lemma SameStep(alpha: real, x: real, y: real, z: real)
    ensures Mix(alpha, x, y) - Mix(alpha, x, z) == Product(1.0 - alpha, y - z)
  {
  }

  lemma Reassociate(q: real, p: real, d: real)
    ensures Product(q, Product(p, d)) == Product(Product(q, p), d)
  {
  }

  /** Where smoothing started is forgotten geometrically, and exactly. */
  lemma {:induction false} SmoothForgets(s1: real, s2: real, xs: seq<real>, alpha: real)
    ensures Smooth(s1, xs, alpha) - Smooth(s2, xs, alpha) == Product(Pow(1.0 - alpha, |xs|), s1 - s2)
  {
    if xs != [] {
      var n := |xs| - 1;
      SmoothForgets(s1, s2, xs[..n], alpha);
      hide Product, Mix;
      SameStep(alpha, xs[n], Smooth(s1, xs[..n], alpha), Smooth(s2, xs[..n], alpha));
      Reassociate(1.0 - alpha, Pow(1.0 - alpha, n), s1 - s2);
    } else {
      NoStep(s1 - s2);
    }
  }

  lemma NoStep(d: real)
    ensures Product(1.0, d) == d
  {
  }

  lemma SmoothScaled(start: real, xs: seq<real>, alpha: real, k: real)
    ensures Smooth(k * start, Scaled(xs, k), alpha) == k * Smooth(start, xs, alpha)
  {
    SmoothProduct(start, xs, alpha, k);
    hide Smooth, Scaled;
  }

  lemma {:induction false} SmoothProduct(start: real, xs: seq<real>, alpha: real, k: real)
    ensures Smooth(Product(k, start), Scaled(xs, k), alpha) == Product(k, Smooth(start, xs, alpha))
  {
    hide Mix, Product;
    if xs != [] {
      var n := |xs| - 1;
      SmoothProduct(start, xs[..n], alpha, k);
      ScaleBlend(alpha, xs[n], Smooth(start, xs[..n], alpha), k);
      ScaledAt(xs, k, n);
      ScaledSlices(xs, k, n);
    }
  }

  lemma ScaleBlend(alpha: real, x: real, y: real, k: real)
    ensures Mix(alpha, Product(k, x), Product(k, y)) == Product(k, Mix(alpha, x, y))
  {
  }

  // ---------------------------------------------------------------------------
  // Seeded by a mean
  // ---------------------------------------------------------------------------

  /** The mean of the first `w` values, smoothed on with the rest. */
  function Seeded(xs: seq<real>, w: nat, alpha: real): real
    requires 0 < w <= |xs|
  {
    Smooth(Mean(xs[..w]), xs[w..], alpha)
  }

  lemma SeededBetween(xs: seq<real>, w: nat, alpha: real, lo: real, hi: real)
    requires 0 < w <= |xs| && 0.0 <= alpha <= 1.0 && Between(xs, lo, hi)
    ensures lo <= Seeded(xs, w, alpha) <= hi
  {
    MeanBetween(xs[..w], lo, hi);
    SmoothBetween(Mean(xs[..w]), xs[w..], alpha, lo, hi);
  }

  lemma SeededScaled(xs: seq<real>, w: nat, alpha: real, k: real)
    requires 0 < w <= |xs|
    ensures Seeded(Scaled(xs, k), w, alpha) == k * Seeded(xs, w, alpha)
  {
    hide Smooth, Mean, Scaled;
    ScaledSlices(xs, k, w);
    MeanScaled(xs[..w], k);
    var seed := Mean(xs[..w]);
    SmoothScaled(seed, xs[w..], alpha, k);
    var scaledSeed := Mean(Scaled(xs, k)[..w]);
    assert scaledSeed == k * seed;
    assert Seeded(Scaled(xs, k), w, alpha) == Smooth(scaledSeed, Scaled(xs[w..], k), alpha);
  }

  function Abs(x: real): real {
    if x < 0.0 then -x else x
  }

  lemma ScaledGap(p: real, d: real, range: real)
    requires p >= 0.0 && Abs(d) <= range
    ensures Abs(p * d) <= p * range
  {
    Nonnegative(p, range - d);
    Nonnegative(p, range + d);
    assert p * range - p * d == p * (range - d);
    assert p * range + p * d == p * (range + d);
  }

  lemma SeededSplit(xs: seq<real>, d: nat, w: nat, alpha: real)
    requires 0 < w && w + d <= |xs|
    ensures Seeded(xs, w, alpha) == Smooth(Smooth(Mean(xs[..w]), xs[w..w + d], alpha), xs[w + d..], alpha)
  {
    hide Smooth, Mean;
    assert xs[w..] == xs[w..w + d] + xs[w + d..];
    SmoothConcat(Mean(xs[..w]), xs[w..w + d], xs[w + d..], alpha);
  }

  lemma SeededOfSuffix(xs: seq<real>, d: nat, w: nat, alpha: real)
    requires 0 < w && w + d <= |xs|
    ensures Seeded(xs[d..], w, alpha) == Smooth(Mean(xs[d..d + w]), xs[w + d..], alpha)
  {
    hide Smooth, Mean;
    assert xs[d..][..w] == xs[d..d + w];
    assert xs[d..][w..] == xs[w + d..];
  }

  lemma BetweenSlice(xs: seq<real>, i: nat, j: nat, lo: real, hi: real)
    requires Between(xs, lo, hi) && i <= j <= |xs|
    ensures Between(xs[i..j], lo, hi)
  {
  }

  lemma GapBetween(x: real, y: real, lo: real, hi: real)
    requires lo <= x <= hi && lo <= y <= hi
    ensures Abs(x - y) <= hi - lo
  {
  }

  /**
    Smoothing only the last `m` values instead of all of them changes the result by at most the
    range of the values times `1 - alpha` to the number of steps made after the new seed.
   */
  lemma TruncationError(xs: seq<real>, m: nat, w: nat, alpha: real, lo: real, hi: real)
    requires 0 < w <= m <= |xs| && 0.0 <= alpha <= 1.0 && Between(xs, lo, hi)
    ensures Abs(Seeded(xs, w, alpha) - Seeded(xs[|xs| - m..], w, alpha)) <= Pow(1.0 - alpha, m - w) * (hi - lo)
  {
    hide Smooth, Mean, Pow, Seeded, Between, Abs;
    var d := |xs| - m;
    var early, late := Smooth(Mean(xs[..w]), xs[w..w + d], alpha), Mean(xs[d..d + w]);
    SeededSplit(xs, d, w, alpha);
    SeededOfSuffix(xs, d, w, alpha);
    BetweenSlice(xs, 0, w, lo, hi);
    BetweenSlice(xs, w, w + d, lo, hi);
    BetweenSlice(xs, d, d + w, lo, hi);
    MeanBetween(xs[..w], lo, hi);
    SmoothBetween(Mean(xs[..w]), xs[w..w + d], alpha, lo, hi);
    MeanBetween(xs[d..d + w], lo, hi);
    GapBetween(early, late, lo, hi);
    SmoothForgets(early, late, xs[w + d..], alpha);
    assert |xs[w + d..]| == m - w;
    PowBetween(1.0 - alpha, m - w);
    var keeps, gap := Pow(1.0 - alpha, m - w), early - late;
    ScaledGap(keeps, gap, hi - lo);
    assert Seeded(xs, w, alpha) - Seeded(xs[d..], w, alpha) == keeps * gap;
  }
}
