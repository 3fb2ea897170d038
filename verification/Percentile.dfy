/** Latency percentiles over real arithmetic: the interpolation that the SQLite ledger
    computes itself, and the continuous percentile that it asks of Postgres. */
module Percentile {
  predicate Sorted(s: seq<real>) {
    forall i, j :: 0 <= i <= j < |s| ==> s[i] <= s[j]
  }

  /** Linear interpolation between two samples. */
  function Mix(a: real, b: real, frac: real): real {
    a * (1.0 - frac) + b * frac
  }

  /** The sample at fractional index `x`. */
  function At(s: seq<real>, x: real): real
    requires s != [] && x >= 0.0
  {
    var lower := x.Floor;
    var upper := lower + 1;
    if upper >= |s| then s[|s| - 1]
    else
      Mix(s[lower], s[upper], x - lower as real)
  }

  /** The fractional index of percentile `p` among `n` samples. */
  function Rank(n: nat, p: real): (x: real)
    requires n >= 1 && p >= 0.0
    ensures x >= 0.0
  {
    MulLe(0.0, p, (n - 1) as real);
    p * ((n - 1) as real)
  }

  /** `percentile(sorted, p)`; zero for no samples. */
  function Percentile(s: seq<real>, p: real): real
    requires p >= 0.0
  {
    if s == [] then 0.0 else At(s, Rank(|s|, p))
  }

  function Ceil(x: real): int {
    if x.Floor as real == x then x.Floor else x.Floor + 1
  }

  /** The continuous percentile of SQL: interpolate between the rows below and above. */
  function PercentileCont(s: seq<real>, p: real): real
    requires 0.0 <= p <= 1.0
  {
    if s == [] then 0.0
    else
      var rn := Rank(|s|, p);
      RankInRange(|s|, p);
      var low, high := rn.Floor, Ceil(rn);
      if low == high then s[low]
      else (high as real - rn) * s[low] + (rn - low as real) * s[high]
  }

  lemma RankInRange(n: nat, p: real)
    requires n >= 1 && 0.0 <= p <= 1.0
    ensures var rn := Rank(n, p); 0.0 <= rn <= (n - 1) as real && 0 <= rn.Floor <= Ceil(rn) < n
  {
  }

  /** Index of the neighbour above. */
  function Above(s: seq<real>, x: real): int
    requires s != []
  {
    if x.Floor + 1 >= |s| then |s| - 1 else x.Floor + 1
  }

  function Below(s: seq<real>, x: real): int
    requires s != []
  {
    if x.Floor >= |s| then |s| - 1 else x.Floor
  }

  lemma MulNonneg(a: real, b: real)
    requires a >= 0.0 && b >= 0.0
    ensures a * b >= 0.0
  {
  }

  lemma MulPos(a: real, b: real)
    requires a > 0.0 && b > 0.0
    ensures a * b > 0.0
  {
  }

  lemma MulLe(a: real, b: real, c: real)
    requires a <= b && c >= 0.0
    ensures a * c <= b * c
  {
  }

  lemma MixFromBelow(a: real, b: real, f: real)
    ensures Mix(a, b, f) == a + (b - a) * f
  {
  }

  lemma MixFromAbove(a: real, b: real, f: real)
    ensures Mix(a, b, f) == b - (b - a) * (1.0 - f)
  {
  }

  lemma Convex(a: real, b: real, f: real)
    requires a <= b && 0.0 <= f <= 1.0
    ensures a <= Mix(a, b, f) <= b
  {
    MixFromBelow(a, b, f);
    MixFromAbove(a, b, f);
    MulNonneg(b - a, f);
    MulNonneg(b - a, 1.0 - f);
  }

  /** A percentile lies between its neighbouring samples. */
  lemma AtBetween(s: seq<real>, x: real)
    requires s != [] && x >= 0.0 && Sorted(s)
    ensures s[Below(s, x)] <= At(s, x) <= s[Above(s, x)]
  {
    if x.Floor + 1 < |s| {
      Convex(s[x.Floor], s[x.Floor + 1], x - x.Floor as real);
    }
  }

  lemma MixMonotone(a: real, b: real, f: real, g: real)
    requires a <= b && f <= g
    ensures Mix(a, b, f) <= Mix(a, b, g)
  {
  }

  lemma MulScaleStrict(f: real, g: real, d: real)
    requires f < g && d > 0.0
    ensures d * f < d * g
  {
  }

  /** Monotone in the index, across segment boundaries too. */
  lemma AtMonotone(s: seq<real>, x: real, y: real)
    requires s != [] && 0.0 <= x <= y && Sorted(s)
    ensures At(s, x) <= At(s, y)
  {
    AtBetween(s, x);
    AtBetween(s, y);
    if x.Floor == y.Floor && x.Floor + 1 < |s| {
      MixMonotone(s[x.Floor], s[x.Floor + 1], x - x.Floor as real, y - y.Floor as real);
    }
  }

  lemma PercentileMonotone(s: seq<real>, p: real, q: real)
    requires 0.0 <= p <= q && Sorted(s)
    ensures Percentile(s, p) <= Percentile(s, q)
  {
    if s != [] {
      MulLe(p, q, (|s| - 1) as real);
      AtMonotone(s, Rank(|s|, p), Rank(|s|, q));
    }
  }

  /** The reported statistics are ordered and lie within the data. */
  lemma {:induction false} StatsOrdered(s: seq<real>)
    requires s != [] && Sorted(s)
    ensures s[0] <= Percentile(s, 0.5) <= Percentile(s, 0.9) <= Percentile(s, 0.99) <= s[|s| - 1]
  {
    PercentileMonotone(s, 0.5, 0.9);
    PercentileMonotone(s, 0.9, 0.99);
    AtBetween(s, Rank(|s|, 0.5));
    AtBetween(s, Rank(|s|, 0.99));
  }

  lemma MixPointwise(a: real, a': real, b: real, b': real, f: real)
    requires a <= a' && b <= b' && 0.0 <= f <= 1.0
    ensures Mix(a, b, f) <= Mix(a', b', f)
  {
    SumOfProducts(a, a', b, b', f, 1.0 - f);
  }

  lemma SumOfProducts(a: real, a': real, b: real, b': real, f: real, g: real)
    requires a <= a' && b <= b' && f >= 0.0 && g >= 0.0
    ensures a * g + b * f <= a' * g + b' * f
  {
  }

  /** Larger samples never give a smaller percentile. */
  lemma PointwiseMonotone(s: seq<real>, t: seq<real>, p: real)
    requires 0.0 <= p && |s| == |t| && forall i :: 0 <= i < |s| ==> s[i] <= t[i]
    ensures Percentile(s, p) <= Percentile(t, p)
  {
    if s != [] {
      var x := Rank(|s|, p);
      if x.Floor + 1 < |s| {
        var f, l := x - x.Floor as real, x.Floor;
        MixPointwise(s[l], t[l], s[l + 1], t[l + 1], f);
      }
    }
  }

  /** The Go interpolation is the continuous percentile. */
  lemma PercentileIsContinuous(s: seq<real>, p: real)
    requires 0.0 <= p <= 1.0
    ensures Percentile(s, p) == PercentileCont(s, p)
  {
    if s != [] {
      RankInRange(|s|, p);
    }
  }

  // ----- The row limit of the SQLite query

  const ROW_LIMIT: nat := 10000

  /** The sorted durations that the query returns out of all that match. */
  function Fetched(s: seq<real>): seq<real> {
    if |s| <= ROW_LIMIT then s else s[..ROW_LIMIT]
  }

  /** Moving from index `x` up to `y` changes nothing exactly when all samples around and
      between them are equal. */
  lemma AtEqualIff(s: seq<real>, x: real, y: real)
    requires s != [] && 0.0 <= x < y <= (|s| - 1) as real && Sorted(s)
    ensures x.Floor < |s| && Ceil(y) < |s|
    ensures At(s, x) == At(s, y) <==> s[x.Floor] == s[Ceil(y)]
  {
    var f, g := x.Floor, y.Floor;
    var fx, fy := x - f as real, y - g as real;
    AtBetween(s, x);
    AtBetween(s, y);
    hide Mix;
    if f == g {
      assert Ceil(y) == f + 1;
      SegmentStrict(s[f], s[f + 1], fx, fy);
    } else {
      SegmentTop(s[f], s[f + 1], fx);
      if g + 1 < |s| {
        SegmentBottom(s[g], s[g + 1], fy);
      }
    }
  }

  lemma SegmentStrict(a: real, b: real, f: real, g: real)
    requires a <= b && f < g
    ensures Mix(a, b, f) == Mix(a, b, g) <==> a == b
  {
  }

  lemma SegmentTop(a: real, b: real, f: real)
    requires a <= b && f < 1.0
    ensures Mix(a, b, f) == b <==> a == b
  {
    MixFromAbove(a, b, f);
    if a < b {
      MulPos(b - a, 1.0 - f);
    }
  }

  lemma SegmentBottom(a: real, b: real, f: real)
    requires a <= b && f >= 0.0
    ensures Mix(a, b, f) == a <==> a == b || f == 0.0
  {
  }

  lemma AtPrefix(s: seq<real>, m: nat, x: real)
    requires 1 <= m <= |s| && 0.0 <= x <= (m - 1) as real
    ensures At(s[..m], x) == At(s, x)
  {
    if x.Floor == m - 1 {
      assert x == (m - 1) as real;
    }
  }

  lemma RankStrict(m: nat, n: nat, p: real)
    requires 1 <= m < n && 0.0 < p <= 1.0
    ensures Rank(m, p) < Rank(n, p) <= (n - 1) as real && Rank(m, p) <= (m - 1) as real
  {
    var x, y := (m - 1) as real, (n - 1) as real;
    MulScaleStrict(x, y, p);
    MulLe(p, 1.0, x);
    MulLe(p, 1.0, y);
  }

  /** With at most 10000 matching rows SQLite reports the continuous percentile. With more
      it never reports too much, and is exact exactly when the samples from the position it
      used up to the true position are all equal. */
  lemma RowLimit(s: seq<real>, p: real)
    requires Sorted(s) && 0.0 < p <= 1.0
    ensures |s| <= ROW_LIMIT ==> Percentile(Fetched(s), p) == PercentileCont(s, p)
    ensures |s| > ROW_LIMIT ==>
              var used, exact := Rank(ROW_LIMIT, p), Rank(|s|, p);
              && 0 <= used.Floor < |s| && 0 <= Ceil(exact) < |s|
              && Percentile(Fetched(s), p) <= PercentileCont(s, p)
              && (Percentile(Fetched(s), p) == PercentileCont(s, p) <==> s[used.Floor] == s[Ceil(exact)])
  {
    PercentileIsContinuous(s, p);
    if |s| > ROW_LIMIT {
      var x, y := Rank(ROW_LIMIT, p), Rank(|s|, p);
      RankStrict(ROW_LIMIT, |s|, p);
      RankInRange(|s|, p);
      AtPrefix(s, ROW_LIMIT, x);
      AtMonotone(s, x, y);
      AtEqualIff(s, x, y);
    }
  }

  /** With more than 10000 different durations SQLite always reports too little. */
  lemma RowLimitTooLow(s: seq<real>, p: real)
    requires |s| > ROW_LIMIT && 0.0 < p <= 1.0 && forall i, j :: 0 <= i < j < |s| ==> s[i] < s[j]
    ensures Percentile(Fetched(s), p) < PercentileCont(s, p)
  {
    assert Sorted(s);
    RowLimit(s, p);
    RankStrict(ROW_LIMIT, |s|, p);
    RankInRange(|s|, p);
    hide Percentile, PercentileCont, Fetched;
    var used, exact := Rank(ROW_LIMIT, p), Rank(|s|, p);
    assert used.Floor as real <= used < exact <= Ceil(exact) as real;
  }

  /** The durations 0, 1, ..., 10000: the median is 5000, and SQLite reports 4999.5. */
  lemma RowLimitExample()
    ensures var s := seq(10001, i => i as real);
            Percentile(Fetched(s), 0.5) == 4999.5 && PercentileCont(s, 0.5) == 5000.0
  {
    var s := seq(10001, i => i as real);
    assert |Fetched(s)| == 10000 && Rank(10000, 0.5) == 4999.5 && Rank(10001, 0.5) == 5000.0;
    assert Fetched(s)[4999] == 4999.0 && Fetched(s)[5000] == 5000.0 && s[5000] == 5000.0;
  }
}
