/** The fixed-bucket latency histogram: recording, merging and quantiles. */
module Histogram {

  const BUCKETS: nat := 17

  const MICROSECOND: int := 1_000
  const MILLISECOND: int := 1_000 * MICROSECOND
  const SECOND: int := 1_000 * MILLISECOND

  /** Upper bounds in nanoseconds; one overflow bucket follows the last. */
  function Bounds(): (b: seq<int>)
    ensures |b| == BUCKETS
  {
    [100 * MICROSECOND, 250 * MICROSECOND, 500 * MICROSECOND,
     1 * MILLISECOND, 2 * MILLISECOND, 5 * MILLISECOND, 10 * MILLISECOND, 25 * MILLISECOND,
     50 * MILLISECOND, 100 * MILLISECOND, 250 * MILLISECOND, 500 * MILLISECOND,
     1 * SECOND, 2 * SECOND, 5 * SECOND, 10 * SECOND, 30 * SECOND]
  }

  function LastBound(): int {
    Bounds()[BUCKETS - 1]
  }

  /** What a bucket reports: its bound, and the last bound for the overflow bucket. */
  function Reported(bucket: nat): int
    requires bucket <= BUCKETS
  {
    if bucket < BUCKETS then Bounds()[bucket] else LastBound()
  }

  lemma BoundsIncrease(i: nat, j: nat)
    requires i < j < BUCKETS
    ensures Bounds()[i] < Bounds()[j]
  {
  }

  function Clamp(d: int): int {
    if d < 0 then 0 else d
  }

  /** The first bucket, from `i` on, whose bound is not below `d`. */
  function BucketFrom(d: int, i: nat): (bucket: nat)
    requires i <= BUCKETS
    ensures i <= bucket <= BUCKETS
    ensures bucket < BUCKETS ==> d <= Bounds()[bucket]
    ensures forall j | i <= j < bucket :: Bounds()[j] < d
    decreases BUCKETS - i
  {
    if i == BUCKETS || d <= Bounds()[i] then i else BucketFrom(d, i + 1)
  }

  function Bucket(d: int): (bucket: nat)
    ensures bucket <= BUCKETS
  {
    BucketFrom(Clamp(d), 0)
  }

  type Counts = c: seq<nat> | |c| == BUCKETS + 1 witness seq(BUCKETS + 1, _ => 0)

  function Empty(): Counts {
    seq(BUCKETS + 1, _ => 0)
  }

  function Bump(c: Counts, bucket: nat): Counts
    requires bucket <= BUCKETS
  {
    c[bucket := c[bucket] + 1]
  }

  function Plus(a: Counts, b: Counts): Counts {
    seq(BUCKETS + 1, i requires 0 <= i <= BUCKETS => a[i] + b[i])
  }

  /** The histogram of a list of samples. */
  function Of(samples: seq<int>): Counts {
    if samples == [] then Empty()
    else Bump(Of(samples[..|samples| - 1]), Bucket(samples[|samples| - 1]))
  }

  /** Merging the histograms of two lists gives the histogram of their concatenation. */
  lemma {:induction false} MergeIsConcatenation(a: seq<int>, b: seq<int>)
    ensures Plus(Of(a), Of(b)) == Of(a + b)
  {
    hide Bucket, Bump, Plus, Empty;
    if b == [] {
      assert a + b == a;
      PlusEmpty(Of(a));
    } else {
      var n := |b| - 1;
      MergeIsConcatenation(a, b[..n]);
      assert (a + b)[..|a| + n] == a + b[..n];
      PlusBump(Of(a), Of(b[..n]), Bucket(b[n]));
    }
  }

  lemma PlusEmpty(c: Counts)
    ensures Plus(c, Empty()) == c
  {
  }

  lemma PlusBump(a: Counts, b: Counts, bucket: nat)
    requires bucket <= BUCKETS
    ensures Plus(a, Bump(b, bucket)) == Bump(Plus(a, b), bucket)
  {
  }

  /** Samples in the buckets before `k`. */
  function Cum(c: Counts, k: nat): nat
    requires k <= BUCKETS + 1
  {
    if k == 0 then 0 else Cum(c, k - 1) + c[k - 1]
  }

  function Total(c: Counts): nat {
    Cum(c, BUCKETS + 1)
  }

  lemma {:induction false} CumGrows(c: Counts, j: nat, k: nat)
    requires j <= k <= BUCKETS + 1
    ensures Cum(c, j) <= Cum(c, k)
  {
    if j < k {
      CumGrows(c, j, k - 1);
    }
  }

  /** Samples not above `v`. */
  function AtMost(samples: seq<int>, v: int): nat {
    if samples == [] then 0
    else AtMost(samples[..|samples| - 1], v) + if samples[|samples| - 1] <= v then 1 else 0
  }

  lemma {:induction false} CumBump(c: Counts, bucket: nat, k: nat)
    requires bucket <= BUCKETS && k <= BUCKETS + 1
    ensures Cum(Bump(c, bucket), k) == Cum(c, k) + if bucket < k then 1 else 0
  {
    if k > 0 {
      CumBump(c, bucket, k - 1);
    }
  }

  lemma {:induction false} CumEmpty(k: nat)
    requires k <= BUCKETS + 1
    ensures Cum(Empty(), k) == 0
  {
    if k > 0 {
      CumEmpty(k - 1);
    }
  }

  /** Cumulative counts are exact at every bound: they count the samples at or below it. */
  lemma {:induction false} CumCounts(samples: seq<int>, bucket: nat)
    requires bucket < BUCKETS
    ensures Cum(Of(samples), bucket + 1) == AtMost(samples, Bounds()[bucket])
  {
    if samples == [] {
      CumEmpty(bucket + 1);
    } else {
      var front, d := samples[..|samples| - 1], samples[|samples| - 1];
      hide Bump, Bucket, Bounds, Cum;
      CumCounts(front, bucket);
      CumBump(Of(front), Bucket(d), bucket + 1);
      SampleBelow(d, bucket);
    }
  }

  lemma SampleBelow(d: int, bucket: nat)
    requires bucket < BUCKETS
    ensures Bucket(d) <= bucket <==> d <= Bounds()[bucket]
  {
    assert Bounds()[bucket] > 0;
    hide Bounds, BucketFrom;
    BucketBelow(Clamp(d), bucket);
  }

  lemma BucketBelow(d: int, bucket: nat)
    requires bucket < BUCKETS
    ensures BucketFrom(d, 0) <= bucket <==> d <= Bounds()[bucket]
  {
    hide Bounds;
    var b := BucketFrom(d, 0);
    if b < bucket {
      BoundsIncrease(b, bucket);
    }
  }

  lemma {:induction false} TotalCounts(samples: seq<int>)
    ensures Total(Of(samples)) == |samples|
  {
    if samples == [] {
      CumEmpty(BUCKETS + 1);
    } else {
      var front := samples[..|samples| - 1];
      TotalCounts(front);
      CumBump(Of(front), Bucket(samples[|samples| - 1]), BUCKETS + 1);
    }
  }

  // ---------- quantiles ----------

  function Ceil(x: real): int {
    -((-x).Floor)
  }

  function ClampQ(q: real): real {
    if q < 0.0 then 0.0 else if q > 1.0 then 1.0 else q
  }

  function Scaled(q: real, total: nat): real {
    q * total as real
  }

  function Rank(q: real, total: nat): int {
    Ceil(Scaled(ClampQ(q), total))
  }

  /** The first bucket, from `i` on, whose cumulative count exceeds `rank`. */
  function Crossing(c: Counts, rank: int, i: nat): (bucket: nat)
    requires i <= BUCKETS + 1
    ensures i <= bucket <= BUCKETS + 1
    ensures bucket <= BUCKETS ==> rank < Cum(c, bucket + 1)
    ensures forall k | i < k <= bucket :: Cum(c, k) <= rank
    decreases BUCKETS + 1 - i
  {
    if i == BUCKETS + 1 || rank < Cum(c, i + 1) then i else Crossing(c, rank, i + 1)
  }

  function PercentileOf(c: Counts, q: real): int {
    if Total(c) == 0 then 0
    else
      var b := Crossing(c, Rank(q, Total(c)), 0);
      if b <= BUCKETS then Reported(b) else LastBound()
  }

  lemma RankRange(q: real, total: nat)
    ensures 0 <= Rank(q, total) <= total
  {
    ScaleDown(ClampQ(q), total);
    hide Scaled;
    assert 0.0 <= Scaled(ClampQ(q), total) <= total as real;
  }

  lemma ScaleDown(q: real, n: nat)
    requires 0.0 <= q <= 1.0
    ensures 0.0 <= Scaled(q, n) <= n as real
  {
    var x := n as real;
    assert x - q * x == (1.0 - q) * x;
  }

  lemma RankMonotone(p: real, q: real, total: nat)
    requires p <= q
    ensures Rank(p, total) <= Rank(q, total)
  {
    Spread(ClampQ(p), ClampQ(q), total);
    hide Scaled;
    assert Scaled(ClampQ(p), total) <= Scaled(ClampQ(q), total);
  }

  lemma Spread(p: real, q: real, n: nat)
    requires p <= q
    ensures Scaled(p, n) <= Scaled(q, n)
  {
    var x := n as real;
    assert q * x - p * x == (q - p) * x;
  }

  lemma ReportedGrows(i: nat, j: nat)
    requires i <= j <= BUCKETS
    ensures Reported(i) <= Reported(j)
  {
    if i < j < BUCKETS {
      BoundsIncrease(i, j);
    } else if i < BUCKETS - 1 && j == BUCKETS {
      BoundsIncrease(i, BUCKETS - 1);
    }
  }

  lemma CrossingMonotone(c: Counts, r: int, s: int)
    requires r <= s
    ensures Crossing(c, r, 0) <= Crossing(c, s, 0)
  {
  }

  /** A higher quantile never reports a lower latency. */
  lemma PercentileMonotone(c: Counts, p: real, q: real)
    requires p <= q
    ensures PercentileOf(c, p) <= PercentileOf(c, q)
  {
    var r, s := Rank(p, Total(c)), Rank(q, Total(c));
    RankMonotone(p, q, Total(c));
    CrossingMonotone(c, r, s);
    var a, b := Crossing(c, r, 0), Crossing(c, s, 0);
    ReportedGrows(if a <= BUCKETS then a else BUCKETS, if b <= BUCKETS then b else BUCKETS);
  }

  /** The rank is the least whole number not below the quantile's share of the samples. */
  lemma RankIsCeiling(q: real, total: nat)
    ensures var share := (if q < 0.0 then 0.0 else if q > 1.0 then 1.0 else q) * total as real;
            Rank(q, total) as real >= share > (Rank(q, total) - 1) as real
  {
  }

  /** The report is the least bucket bound with more samples at or below it than the rank, the
      quantile's share of the samples rounded up, and the last bound when there is none. */
  lemma PercentileIsLeastBound(samples: seq<int>, q: real)
    requires samples != []
    ensures var p, rank := PercentileOf(Of(samples), q), Rank(q, |samples|);
      && p in Bounds()
      && (p != LastBound() ==> rank < AtMost(samples, p))
      && (forall b | b in Bounds() && b < p :: AtMost(samples, b) <= rank)
  {
    hide Bump, Rank, Bounds, Of, AtMost, Cum;
    TotalCounts(samples);
    var c, rank := Of(samples), Rank(q, |samples|);
    var k := Crossing(c, rank, 0);
    var p := PercentileOf(c, q);
    if p != LastBound() {
      CumCounts(samples, k);
    }
    forall b | b in Bounds() && b < p
      ensures AtMost(samples, b) <= rank
    {
      var j :| 0 <= j < BUCKETS && Bounds()[j] == b;
      if k <= j {
        ReportedGrows(k, j);
      }
      CumCounts(samples, j);
    }
  }

  /** `v` is the n-th smallest sample. */
  ghost predicate IsNthSmallest(samples: seq<int>, n: nat, v: int) {
    AtMost(samples, v - 1) < n <= AtMost(samples, v)
  }

  lemma {:induction false} AtMostGrows(samples: seq<int>, u: int, v: int)
    requires u <= v
    ensures AtMost(samples, u) <= AtMost(samples, v) <= |samples|
  {
    if samples != [] {
      AtMostGrows(samples[..|samples| - 1], u, v);
    }
  }

  /** While the samples stay within the last bound, the report never falls short of the
      sample the quantile asks for. */
  lemma PercentileNotBelowRank(samples: seq<int>, q: real, v: int)
    requires samples != [] && q > 0.0
    requires IsNthSmallest(samples, Rank(q, |samples|), v) && v <= LastBound()
    ensures v <= PercentileOf(Of(samples), q)
  {
    hide PercentileOf, Of, Rank, AtMost, Bounds;
    var p, rank := PercentileOf(Of(samples), q), Rank(q, |samples|);
    PercentileIsLeastBound(samples, q);
    if p < v {
      assert rank < AtMost(samples, p);
      AtMostGrows(samples, p, v - 1);
    }
  }

  // ---------- where the report and the documented quantile part ----------

  /** The documented report, with "crosses q * total" read as reaches it: the nearest rank. */
  function NearestRank(c: Counts, q: real): int {
    if Total(c) == 0 then 0
    else
      var b := Crossing(c, Rank(q, Total(c)) - 1, 0);
      if b <= BUCKETS then Reported(b) else LastBound()
  }

  lemma CrossingFound(c: Counts, rank: int)
    requires rank < Total(c)
    ensures Crossing(c, rank, 0) <= BUCKETS
  {
  }

  /** The code asks for one sample more. It reports the documented bucket's bound exactly
      when that bucket holds a further sample beyond the rank, or when its bound is the
      last one anyway. */
  lemma PercentileIsNearestRankIff(c: Counts, q: real)
    requires Total(c) > 0
    ensures var rank := Rank(q, Total(c));
      var b := Crossing(c, rank - 1, 0);
      && b <= BUCKETS
      && (PercentileOf(c, q) == NearestRank(c, q) <==> rank < Cum(c, b + 1) || Reported(b) == LastBound())
  {
    hide Reported, Bounds, Rank, Cum;
    var rank := Rank(q, Total(c));
    RankRange(q, Total(c));
    var b, k := Crossing(c, rank - 1, 0), Crossing(c, rank, 0);
    CrossingMonotone(c, rank - 1, rank);
    CrossingFound(c, rank - 1);
    var m := if k <= BUCKETS then k else BUCKETS;
    LastReported();
    if rank < Cum(c, b + 1) {
      assert k == b;
    } else if Reported(b) != LastBound() {
      ReportedStrict(b, m);
    } else {
      ReportedGrows(b, m);
      ReportedGrows(m, BUCKETS);
    }
  }

  lemma LastReported()
    ensures Reported(BUCKETS) == LastBound()
  {
  }

  lemma ReportedStrict(i: nat, j: nat)
    requires i < j <= BUCKETS && Reported(i) != LastBound()
    ensures Reported(i) < Reported(j)
  {
    if j < BUCKETS {
      BoundsIncrease(i, j);
    } else {
      assert i < BUCKETS - 1;
      BoundsIncrease(i, BUCKETS - 1);
    }
  }

  /** In particular, once `q` exceeds 1 - 1/n the report is the last bound (30 seconds) no
      matter how fast the n samples were: the 99th percentile of fewer than 100 samples
      says nothing. */
  lemma HighQuantileSaturates(c: Counts, q: real)
    requires Total(c) > 0 && Scaled(ClampQ(q), Total(c)) > (Total(c) - 1) as real
    ensures PercentileOf(c, q) == LastBound() == 30_000_000_000
  {
    var n := Total(c);
    RankRange(q, n);
    assert Rank(q, n) == n by {
      hide Scaled;
    }
    var k := Crossing(c, n, 0);
    if k <= BUCKETS {
      CumGrows(c, k + 1, BUCKETS + 1);
    }
  }

  lemma P99OfFewSamples(c: Counts)
    requires 0 < Total(c) < 100
    ensures PercentileOf(c, 0.99) == 30_000_000_000
  {
    var n := Total(c) as real;
    assert 0.99 * n > n - 1.0;
    HighQuantileSaturates(c, 0.99);
  }

  /** For one sample of a millisecond the documented report is a millisecond. */
  lemma OneSampleReportsFarOff()
    ensures var c := Of([1_000_000]);
            NearestRank(c, 0.99) == 1_000_000 && PercentileOf(c, 0.99) == 30_000_000_000
  {
    hide Of, Rank, Crossing, Cum, PercentileOf;
    var c := Of([1 * MILLISECOND]);
    OneSample();
    TotalCounts([1 * MILLISECOND]);
    RankOfOne();
    P99OfFewSamples(c);
    FirstCrossing(c, 3);
  }

  lemma RankOfOne()
    ensures Rank(0.99, 1) == 1
  {
    assert Scaled(0.99, 1) == 0.99;
  }

  lemma OneSample()
    ensures var c := Of([1 * MILLISECOND]); Cum(c, 3) == 0 && Cum(c, 4) == 1
  {
    var one := [1 * MILLISECOND];
    CumCounts(one, 2);
    CumCounts(one, 3);
    FirstBounds();
    hide Cum, Of, Bounds;
    AtMostOne(1 * MILLISECOND, Bounds()[2]);
    AtMostOne(1 * MILLISECOND, Bounds()[3]);
  }

  lemma FirstBounds()
    ensures Bounds()[2] == 500_000 && Bounds()[3] == 1_000_000 == 1 * MILLISECOND
  {
  }

  lemma AtMostOne(d: int, v: int)
    ensures AtMost([d], v) == if d <= v then 1 else 0
  {
    assert [d][..0] == [];
  }

  lemma FirstCrossing(c: Counts, k: nat)
    requires k <= BUCKETS && Cum(c, k) == 0 && Cum(c, k + 1) > 0
    ensures Crossing(c, 0, 0) == k
  {
    var b := Crossing(c, 0, 0);
    if b < k {
      CumGrows(c, b + 1, k);
    }
  }

  // ---------- the code ----------

  lemma CumStep(c: Counts)
    ensures Cum(c, 0) == 0 && forall k | 0 < k <= BUCKETS + 1 :: Cum(c, k) == Cum(c, k - 1) + c[k - 1]
  {
  }

  class Histogram {
    const counts: array<nat>

    ghost predicate Valid()
      reads this
    {
      counts.Length == BUCKETS + 1
    }

    ghost function View(): Counts
      requires Valid()
      reads this, counts
    {
      counts[..]
    }

    constructor ()
      ensures Valid() && View() == Empty() && fresh(counts)
    {
      counts := new nat[BUCKETS + 1](_ => 0);
    }

    method AddOne(bucket: nat)
      requires Valid() && bucket <= BUCKETS
      modifies counts
      ensures View() == Bump(old(View()), bucket)
    {
      counts[bucket] := counts[bucket] + 1;
    }

    method Record(d: int)
      requires Valid()
      modifies counts
      ensures View() == Bump(old(View()), Bucket(d))
    {
      hide Bounds, Bump;
      var sample := d;
      if sample < 0 {
        sample := 0;
      }
      var bounds := Bounds();
      for i := 0 to BUCKETS
        invariant BucketFrom(sample, i) == Bucket(d)
      {
        if sample <= bounds[i] {
          AddOne(i);
          return;
        }
      }
      AddOne(BUCKETS);
    }

    method Merge(src: Histogram)
      requires Valid() && src.Valid() && counts != src.counts
      modifies counts
      ensures View() == Plus(old(View()), src.View())
    {
      for i := 0 to BUCKETS + 1
        invariant forall j | 0 <= j < i :: counts[j] == old(counts[j]) + src.counts[j]
        invariant forall j | i <= j <= BUCKETS :: counts[j] == old(counts[j])
      {
        counts[i] := counts[i] + src.counts[i];
      }
    }

    method Count() returns (total: nat)
      requires Valid()
      ensures total == Total(View())
    {
      hide Cum;
      CumStep(View());
      total := 0;
      for i := 0 to BUCKETS + 1
        invariant total == Cum(View(), i)
      {
        total := total + counts[i];
      }
    }

    method ReportAt(rank: int) returns (d: int)
      requires Valid()
      ensures var b := Crossing(View(), rank, 0); d == if b <= BUCKETS then Reported(b) else LastBound()
    {
      hide Bounds, Cum;
      CumStep(View());
      var bounds := Bounds();
      var cum: nat := 0;
      for i := 0 to BUCKETS + 1
        invariant cum == Cum(View(), i)
        invariant Crossing(View(), rank, i) == Crossing(View(), rank, 0)
      {
        cum := cum + counts[i];
        if cum > rank {
          if i < BUCKETS {
            return bounds[i];
          }
          return bounds[BUCKETS - 1];
        }
      }
      return bounds[BUCKETS - 1];
    }

    method Percentile(q: real) returns (d: int)
      requires Valid()
      ensures d == PercentileOf(View(), q)
    {
      hide Crossing, Total, Ceil, Bounds, Scaled;
      var cq := q;
      if cq < 0.0 {
        cq := 0.0;
      }
      if cq > 1.0 {
        cq := 1.0;
      }
      var total := Count();
      if total == 0 {
        return 0;
      }
      assert cq == ClampQ(q);
      var rank := Ceil(Scaled(cq, total));
      assert rank == Rank(q, total);
      d := ReportAt(rank);
    }
  }
}
