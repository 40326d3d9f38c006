/** The latency histogram: logarithmic buckets that stand for the recorded samples. */
module LatencyHistogram {

  const BUCKET_COUNT: nat := 64
  const UINT64_MAX: nat := 0xFFFF_FFFF_FFFF_FFFF

  function Pow2(n: nat): (r: nat)
    ensures r > 0
  {
    if n == 0 then 1 else 2 * Pow2(n - 1)
  }

  lemma {:induction false} Pow2Grows(a: nat, b: nat)
    requires a <= b
    ensures Pow2(a) <= Pow2(b)
    decreases b
  {
    if a < b {
      Pow2Grows(a, b - 1);
    }
  }

  lemma Pow2Is64()
    ensures Pow2(64) == UINT64_MAX + 1
  {
    Pow2Squared(4, 16);
    Pow2Squared(8, 256);
    Pow2Squared(16, 0x1_0000);
    Pow2Squared(32, 0x1_0000_0000);
  }

  lemma Pow2Squared(n: nat, v: nat)
    requires Pow2(n) == v
    ensures Pow2(n + n) == v * v
  {
    Pow2Sum(n, n);
  }

  lemma {:induction false} Pow2Sum(a: nat, b: nat)
    ensures Pow2(a + b) == Pow2(a) * Pow2(b)
    decreases b
  {
    if b > 0 {
      Pow2Sum(a, b - 1);
      assert Pow2(a) * (2 * Pow2(b - 1)) == 2 * (Pow2(a) * Pow2(b - 1));
    }
  }

  // ---------------------------------------------------------------- buckets

  function LowerBound(i: nat): nat {
    if i == 0 then 0 else if i >= BUCKET_COUNT then UINT64_MAX else Pow2(i - 1)
  }

  function UpperBound(i: nat): nat {
    if i >= BUCKET_COUNT - 1 then UINT64_MAX else Pow2(i)
  }

  function Midpoint(i: nat): real {
    if UpperBound(i) == UINT64_MAX then LowerBound(i) as real
    else (LowerBound(i) as real + UpperBound(i) as real) / 2.0
  }

  function HighestBit(v: nat): nat {
    if v < 2 then 0 else HighestBit(v / 2) + 1
  }

  function BucketIndex(v: nat): (i: nat)
    ensures i < BUCKET_COUNT
  {
    if v == 0 then 0 else if HighestBit(v) + 1 < BUCKET_COUNT then HighestBit(v) + 1 else BUCKET_COUNT - 1
  }

  lemma {:induction false} HighestBitBounds(v: nat)
    requires v > 0
    ensures Pow2(HighestBit(v)) <= v < 2 * Pow2(HighestBit(v))
  {
    if v >= 2 {
      HighestBitBounds(v / 2);
    }
  }

  /** A value lies in its own bucket. */
  lemma InBucket(v: nat)
    requires v <= UINT64_MAX
    ensures var i := BucketIndex(v); LowerBound(i) <= v <= UpperBound(i) && (i < BUCKET_COUNT - 1 ==> v < UpperBound(i))
  {
    if v > 0 {
      HighestBitBounds(v);
      var h := HighestBit(v);
      if h + 1 < BUCKET_COUNT {
        assert Pow2(h + 1) == 2 * Pow2(h);
      } else {
        Pow2Grows(BUCKET_COUNT - 2, h);
      }
    }
  }

  /** Bucket 0 holds zero, bucket i the numbers of i binary digits, the last one everything from 2^62 on. */
  lemma BucketHolds(v: nat, i: nat)
    requires i < BUCKET_COUNT
    ensures BucketIndex(v) == i <==>
              if i == 0 then v == 0 else Pow2(i - 1) <= v && (i < BUCKET_COUNT - 1 ==> v < Pow2(i))
  {
    if v > 0 {
      HighestBitBounds(v);
      var h := HighestBit(v);
      assert Pow2(h + 1) == 2 * Pow2(h);
      if 0 < i <= h {
        Pow2Grows(i - 1, h);
        Pow2Grows(i, h);
      } else if i > h + 1 {
        Pow2Grows(h + 1, i - 1);
      }
    }
  }

  /** The buckets are consecutive. */
  lemma BucketsApart(i: nat, j: nat)
    requires i < j < BUCKET_COUNT
    ensures UpperBound(i) <= LowerBound(j)
  {
    Pow2Grows(i, j - 1);
  }

  lemma {:induction false} HighestBitGrows(a: nat, b: nat)
    requires a <= b
    ensures HighestBit(a) <= HighestBit(b)
    decreases b
  {
    if a >= 2 {
      HighestBitGrows(a / 2, b / 2);
    }
  }

  lemma IndexGrows(a: nat, b: nat)
    requires a <= b
    ensures BucketIndex(a) <= BucketIndex(b)
  {
    HighestBitGrows(a, b);
  }

  /** The portable loop over the shifted value. */
  method ComputeBucketIndex(value: nat) returns (i: nat)
    ensures i == BucketIndex(value)
  {
    if value == 0 {
      return 0;
    }
    var highestBit: nat, temp: nat := 0, value / 2;
    HalfBits(value);
    while temp != 0
      invariant highestBit + HighestBit(2 * temp) == HighestBit(value)
      decreases temp
    {
      highestBit := highestBit + 1;
      HalfBits(temp);
      temp := temp / 2;
    }
    i := if highestBit + 1 < BUCKET_COUNT then highestBit + 1 else BUCKET_COUNT - 1;
  }

  lemma HalfBits(t: nat)
    ensures HighestBit(2 * (t / 2)) == HighestBit(t)
  {
    if t >= 2 {
      assert 2 * (t / 2) / 2 == t / 2;
    }
  }

  // ---------------------------------------------------------------- counting samples

  function Count(s: seq<nat>, p: nat -> bool): nat {
    if s == [] then 0 else Count(s[..|s| - 1], p) + if p(s[|s| - 1]) then 1 else 0
  }

  lemma {:induction false} CountSplits(a: seq<nat>, b: seq<nat>, p: nat -> bool)
    ensures Count(a + b, p) == Count(a, p) + Count(b, p)
    decreases |b|
  {
    if b == [] {
      assert a + b == a;
    } else {
      var n := |b| - 1;
      CountSplits(a, b[..n], p);
      assert (a + b)[..|a| + n] == a + b[..n];
    }
  }

  lemma {:induction false} CountImplies(s: seq<nat>, p: nat -> bool, q: nat -> bool)
    requires forall x :: x in s && p(x) ==> q(x)
    ensures Count(s, p) <= Count(s, q)
  {
    if s != [] {
      var n := |s| - 1;
      assert s[n] in s;
      assert forall x :: x in s[..n] ==> x in s;
      CountImplies(s[..n], p, q);
    }
  }

  /** Order does not matter. */
  lemma {:induction false} CountPermuted(a: seq<nat>, b: seq<nat>, p: nat -> bool)
    requires multiset(a) == multiset(b)
    ensures Count(a, p) == Count(b, p)
    decreases |a|
  {
    hide Count;
    if a == [] {
      assert |multiset(b)| == 0;
    } else {
      var n := |a| - 1;
      assert a[n] in multiset(a);
      var k :| 0 <= k < |b| && b[k] == a[n];
      RemoveOne(a, n, p);
      RemoveOne(b, k, p);
      assert a[..n] + a[n + 1..] == a[..n];
      CountPermuted(a[..n], b[..k] + b[k + 1..], p);
    }
  }

  lemma RemoveOne(s: seq<nat>, k: nat, p: nat -> bool)
    requires k < |s|
    ensures Count(s, p) == Count(s[..k] + s[k + 1..], p) + if p(s[k]) then 1 else 0
    ensures multiset(s[..k] + s[k + 1..]) == multiset(s) - multiset{s[k]}
  {
    hide Count;
    var x, a, b := s[k], s[..k], s[k + 1..];
    assert s == a + ([x] + b);
    CountSplits(a, b, p);
    CountSplits(a, [x] + b, p);
    CountSplits([x], b, p);
    CountOne(x, p);
    SplitMultiset(a, x, b);
  }

  lemma CountOne(x: nat, p: nat -> bool)
    ensures Count([x], p) == if p(x) then 1 else 0
  {
    assert [x][..0] == [];
  }

  lemma SplitMultiset(a: seq<nat>, x: nat, b: seq<nat>)
    ensures multiset(a + b) == multiset(a + ([x] + b)) - multiset{x}
  {
    assert multiset(a + ([x] + b)) == multiset(a) + multiset([x] + b);
    assert multiset([x] + b) == multiset{x} + multiset(b);
  }

  /** `v` is the `k`-th smallest sample, counting from one. */
  ghost predicate IsRank(s: seq<nat>, k: nat, v: nat) {
    Count(s, (x: nat) => x < v) < k <= Count(s, (x: nat) => x <= v)
  }

  /** In sorted samples that is the one in position `k - 1`. */
  lemma {:induction false} SortedRank(s: seq<nat>, k: nat)
    requires 0 < k <= |s| && forall i, j :: 0 <= i <= j < |s| ==> s[i] <= s[j]
    ensures IsRank(s, k, s[k - 1])
  {
    var v := s[k - 1];
    var a, b := s[..k - 1], s[k - 1..];
    assert s == a + b && s == s[..k] + s[k..];
    CountSplits(a, b, (x: nat) => x < v);
    CountSplits(s[..k], s[k..], (x: nat) => x <= v);
    CountNone(b, (x: nat) => x < v);
    CountAtMost(a, (x: nat) => x < v);
    CountAll(s[..k], (x: nat) => x <= v);
  }

  lemma {:induction false} CountNone(s: seq<nat>, p: nat -> bool)
    requires forall x :: x in s ==> !p(x)
    ensures Count(s, p) == 0
  {
    if s != [] {
      assert s[|s| - 1] in s;
      CountNone(s[..|s| - 1], p);
    }
  }

  lemma {:induction false} CountAtMost(s: seq<nat>, p: nat -> bool)
    ensures Count(s, p) <= |s|
  {
    if s != [] {
      CountAtMost(s[..|s| - 1], p);
    }
  }

  lemma {:induction false} CountAll(s: seq<nat>, p: nat -> bool)
    requires forall x :: x in s ==> p(x)
    ensures Count(s, p) == |s|
  {
    if s != [] {
      assert s[|s| - 1] in s;
      CountAll(s[..|s| - 1], p);
    }
  }

  // ---------------------------------------------------------------- bucket counts and ranks

  /** How many samples fell into each bucket. */
  ghost function Counts(s: seq<nat>): seq<nat> {
    seq(BUCKET_COUNT, i => Count(s, (x: nat) => BucketIndex(x) == i))
  }

  /** The samples in the buckets before `i`. */
  ghost function Before(counts: seq<nat>, i: nat): nat
    requires i <= |counts|
  {
    if i == 0 then 0 else Before(counts, i - 1) + counts[i - 1]
  }

  lemma {:induction false} BeforeCounts(s: seq<nat>, i: nat)
    requires i <= BUCKET_COUNT
    ensures Before(Counts(s), i) == Count(s, (x: nat) => BucketIndex(x) < i)
  {
    if i == 0 {
      CountNone(s, (x: nat) => BucketIndex(x) < 0);
    } else {
      BeforeCounts(s, i - 1);
      CountNext(s, i - 1);
    }
  }

  lemma {:induction false} CountNext(s: seq<nat>, i: nat)
    ensures Count(s, (x: nat) => BucketIndex(x) < i) + Count(s, (x: nat) => BucketIndex(x) == i)
            == Count(s, (x: nat) => BucketIndex(x) < i + 1)
  {
    if s != [] {
      CountNext(s[..|s| - 1], i);
    }
  }

  lemma {:induction false} BeforeGrows(counts: seq<nat>, i: nat, j: nat)
    requires i <= j <= |counts|
    ensures Before(counts, i) <= Before(counts, j)
    decreases j
  {
    if i < j {
      BeforeGrows(counts, i, j - 1);
    }
  }

  /** The first bucket at which the running count reaches `k`. */
  ghost predicate RankBucket(counts: seq<nat>, k: nat, i: nat) {
    i < |counts| && Before(counts, i + 1) >= k && (i == 0 || Before(counts, i) < k)
  }

  /** The bucket found for a rank is the bucket of the sample with that rank. */
  lemma RankBucketIsSampleBucket(s: seq<nat>, k: nat, v: nat, i: nat)
    requires k > 0 && IsRank(s, k, v) && RankBucket(Counts(s), k, i)
    ensures i == BucketIndex(v)
  {
    var b := BucketIndex(v);
    forall x | x in s
      ensures x <= v ==> BucketIndex(x) < b + 1
      ensures BucketIndex(x) < b ==> x < v
    {
      if x <= v {
        IndexGrows(x, v);
      } else {
        IndexGrows(v, x);
      }
    }
    CountImplies(s, (x: nat) => x <= v, (x: nat) => BucketIndex(x) < b + 1);
    CountImplies(s, (x: nat) => BucketIndex(x) < b, (x: nat) => x < v);
    BeforeCounts(s, b + 1);
    BeforeCounts(s, b);
    if i < b {
      BeforeGrows(Counts(s), i + 1, b);
    } else if i > b {
      BeforeGrows(Counts(s), b + 1, i);
    }
  }

  // ---------------------------------------------------------------- the reported value

  function Interpolated(fraction: real, lower: real, upper: real): real {
    lower + fraction * (upper - lower)
  }

  /** The value reported for rank `k` found in bucket `i`: interpolated within the bucket. */
  ghost function Reported(counts: seq<nat>, k: nat, i: nat): real
    requires RankBucket(counts, k, i)
  {
    if counts[i] == 0 then Midpoint(i)
    else
      Interpolated((k - Before(counts, i)) as real / counts[i] as real, LowerBound(i) as real, UpperBound(i) as real)
  }

  lemma InterpolatesEnds(lower: real, upper: real)
    ensures Interpolated(0.0, lower, upper) == lower && Interpolated(1.0, lower, upper) == upper
  {
  }

  /** The value is as far into the bucket as the rank is among the samples of the bucket. */
  ghost predicate Proportional(counts: seq<nat>, k: nat, i: nat, value: real) {
    && i < |counts|
    && (value - LowerBound(i) as real) * counts[i] as real
       == (k - Before(counts, i)) as real * (UpperBound(i) as real - LowerBound(i) as real)
  }

  /** Within a bucket the value rises in proportion to the rank, up to the upper bound. */
  lemma ReportedIsLinear(counts: seq<nat>, k: nat, i: nat)
    requires RankBucket(counts, k, i) && k > 0
    ensures counts[i] > 0 && Proportional(counts, k, i, Reported(counts, k, i))
    ensures k == Before(counts, i + 1) ==> Reported(counts, k, i) == UpperBound(i) as real
  {
    hide LowerBound, UpperBound, Interpolated, Proportional;
    assert Before(counts, i + 1) == Before(counts, i) + counts[i];
    var n, c := (k - Before(counts, i)) as real, counts[i] as real;
    InterpolatesEnds(LowerBound(i) as real, UpperBound(i) as real);
    WholeFraction(c);
    InterpolatedAt(counts, k, i);
  }

  lemma WholeFraction(c: real)
    requires c > 0.0
    ensures c / c == 1.0
  {
  }

  lemma InterpolatedAt(counts: seq<nat>, k: nat, i: nat)
    requires i < |counts| && counts[i] > 0
    ensures Proportional(counts, k, i, Interpolated((k - Before(counts, i)) as real / counts[i] as real,
                                                    LowerBound(i) as real, UpperBound(i) as real))
  {
    hide LowerBound, UpperBound, Before;
    Quotient((k - Before(counts, i)) as real, counts[i] as real, UpperBound(i) as real - LowerBound(i) as real);
  }

  lemma Quotient(n: real, c: real, d: real)
    requires c > 0.0
    ensures ((n / c) * d) * c == n * d
  {
    assert ((n / c) * d) * c == ((n / c) * c) * d;
  }

  /** So neighbouring ranks in a bucket are an equal step apart, whatever the rank. */
  lemma EqualSteps(counts: seq<nat>, k: nat, i: nat, x: real, y: real)
    requires RankBucket(counts, k, i) && x == Reported(counts, k, i) && k > 0
    requires RankBucket(counts, k + 1, i) && y == Reported(counts, k + 1, i)
    ensures (y - x) * counts[i] as real == UpperBound(i) as real - LowerBound(i) as real
  {
    ReportedIsLinear(counts, k, i);
    ReportedIsLinear(counts, k + 1, i);
    StepApart(counts, k, i, x, y);
    hide *;
  }

  lemma StepApart(counts: seq<nat>, k: nat, i: nat, x: real, y: real)
    requires Proportional(counts, k, i, x) && Proportional(counts, k + 1, i, y)
    ensures (y - x) * counts[i] as real == UpperBound(i) as real - LowerBound(i) as real
  {
    var n, c, l := (k - Before(counts, i)) as real, counts[i] as real, LowerBound(i) as real;
    var d := UpperBound(i) as real - l;
    assert (k + 1 - Before(counts, i)) as real == n + 1.0;
    hide LowerBound, UpperBound, Before;
    Difference(x, y, l, n, c, d);
  }

  lemma Difference(x: real, y: real, l: real, n: real, c: real, d: real)
    requires (x - l) * c == n * d && (y - l) * c == (n + 1.0) * d
    ensures (y - x) * c == d
  {
    assert (y - x) * c == (y - l) * c - (x - l) * c;
    assert (n + 1.0) * d == n * d + d;
  }

  lemma BoundsOrdered(i: nat)
    requires i < BUCKET_COUNT
    ensures LowerBound(i) < UpperBound(i)
  {
    if 0 < i < BUCKET_COUNT - 1 {
      assert Pow2(i) == 2 * Pow2(i - 1);
    } else if i == BUCKET_COUNT - 1 {
      Pow2Is64();
      assert Pow2(64) == 2 * Pow2(63) && Pow2(63) == 2 * Pow2(62);
    }
  }

  lemma FractionBounds(a: int, c: nat)
    requires 0 <= a <= c && c > 0
    ensures 0.0 <= a as real / c as real <= 1.0
  {
  }

  lemma Interpolates(f: real, lo: real, hi: real)
    requires 0.0 <= f <= 1.0 && lo <= hi
    ensures lo <= Interpolated(f, lo, hi) <= hi
  {
    ProductSign(f, hi - lo);
    ProductSign(1.0 - f, hi - lo);
    assert hi - Interpolated(f, lo, hi) == (1.0 - f) * (hi - lo);
  }

  lemma ReportedInBucket(counts: seq<nat>, k: nat, i: nat)
    requires |counts| == BUCKET_COUNT && RankBucket(counts, k, i)
    ensures LowerBound(i) as real <= Reported(counts, k, i) <= UpperBound(i) as real
  {
    BoundsOrdered(i);
    if counts[i] != 0 {
      hide LowerBound, UpperBound, Interpolated;
      var f := (k - Before(counts, i)) as real / counts[i] as real;
      FractionBounds(k - Before(counts, i), counts[i]);
      Interpolates(f, LowerBound(i) as real, UpperBound(i) as real);
    } else {
      assert i == 0 && Midpoint(0) == 0.5;
    }
  }

  /** The reported value for rank `k` is within the bucket of the `k`-th smallest sample. */
  lemma PercentileNearSample(s: seq<nat>, k: nat, v: nat, i: nat)
    requires k > 0 && v <= UINT64_MAX && IsRank(s, k, v) && RankBucket(Counts(s), k, i)
    ensures var b := BucketIndex(v);
            && LowerBound(b) as real <= Reported(Counts(s), k, i) <= UpperBound(b) as real
            && LowerBound(b) <= v <= UpperBound(b)
  {
    RankBucketIsSampleBucket(s, k, v, i);
    ReportedInBucket(Counts(s), k, i);
    InBucket(v);
  }

  ghost predicate SortedOf(t: seq<nat>, s: seq<nat>) {
    multiset(t) == multiset(s) && forall i, j :: 0 <= i <= j < |t| ==> t[i] <= t[j]
  }

  /** For samples in any order: the value for rank `k` is within the bucket of the `k`-th of the sorted samples. */
  lemma PercentileOfSorted(s: seq<nat>, t: seq<nat>, k: nat, i: nat)
    requires SortedOf(t, s) && 0 < k <= |s| && RankBucket(Counts(s), k, i) && forall x :: x in s ==> x <= UINT64_MAX
    ensures |t| == |s| && i == BucketIndex(t[k - 1])
    ensures LowerBound(i) <= t[k - 1] <= UpperBound(i)
    ensures LowerBound(i) as real <= Reported(Counts(s), k, i) <= UpperBound(i) as real
  {
    assert |multiset(t)| == |multiset(s)|;
    var v := t[k - 1];
    SortedRank(t, k);
    CountPermuted(t, s, (x: nat) => x < v);
    CountPermuted(t, s, (x: nat) => x <= v);
    assert v in multiset(t) && v in s;
    RankBucketIsSampleBucket(s, k, v, i);
    PercentileNearSample(s, k, v, i);
  }

  lemma FractionGrows(a: int, b: int, c: nat)
    requires a <= b && c > 0
    ensures a as real / c as real <= b as real / c as real
  {
  }

  lemma InterpolationGrows(f: real, g: real, lo: real, hi: real)
    requires f <= g && lo <= hi
    ensures Interpolated(f, lo, hi) <= Interpolated(g, lo, hi)
  {
    ProductSign(g - f, hi - lo);
    assert Interpolated(g, lo, hi) - Interpolated(f, lo, hi) == (g - f) * (hi - lo);
  }

  /** A higher rank never reports a lower value. */
  lemma ReportedGrows(counts: seq<nat>, k: nat, i: nat, k': nat, i': nat)
    requires |counts| == BUCKET_COUNT && RankBucket(counts, k, i) && RankBucket(counts, k', i') && k <= k'
    ensures Reported(counts, k, i) <= Reported(counts, k', i')
  {
    hide LowerBound, UpperBound, Midpoint, Interpolated;
    if i == i' {
      if counts[i] != 0 {
        BoundsOrdered(i);
        FractionGrows(k - Before(counts, i), k' - Before(counts, i), counts[i]);
        InterpolationGrows((k - Before(counts, i)) as real / counts[i] as real,
                           (k' - Before(counts, i)) as real / counts[i] as real,
                           LowerBound(i) as real, UpperBound(i) as real);
      }
    } else if i < i' {
      ReportedInBucket(counts, k, i);
      ReportedInBucket(counts, k', i');
      BucketsApart(i, i');
    } else {
      BeforeGrows(counts, i' + 1, i);
    }
  }

  // ---------------------------------------------------------------- rank zero

  /** Rank zero is always answered from bucket zero. */
  lemma RankZeroBucket(counts: seq<nat>, i: nat)
    requires |counts| == BUCKET_COUNT
    ensures RankBucket(counts, 0, i) <==> i == 0
  {
  }

  lemma RankZeroReports(counts: seq<nat>)
    requires |counts| == BUCKET_COUNT
    ensures RankBucket(counts, 0, 0) && Reported(counts, 0, 0) == if counts[0] == 0 then 0.5 else 0.0
  {
    assert LowerBound(0) == 0 && UpperBound(0) == 1 && Midpoint(0) == 0.5;
    if counts[0] != 0 {
      assert (0 - Before(counts, 0)) as real / counts[0] as real == 0.0;
    }
  }

  /** So it lies in the smallest sample's bucket exactly when that sample is zero. */
  lemma RankZeroNearMinIff(s: seq<nat>)
    requires s != [] && forall x :: x in s ==> x <= UINT64_MAX
    ensures RankBucket(Counts(s), 0, 0)
    ensures var b := BucketIndex(MinOf(s));
            LowerBound(b) as real <= Reported(Counts(s), 0, 0) <= UpperBound(b) as real <==> MinOf(s) == 0
  {
    var m := MinOf(s);
    RankZeroReports(Counts(s));
    if m > 0 {
      assert BucketIndex(m) > 0;
      Pow2Grows(0, BucketIndex(m) - 1);
    }
  }

  /** A higher percentile never reports a lower value. */
  lemma PercentileGrows(s: seq<nat>, p: real, q: real, i: nat, j: nat)
    requires s != [] && p <= q
    requires RankBucket(Counts(s), TargetRank(p, |s|), i) && RankBucket(Counts(s), TargetRank(q, |s|), j)
    ensures Reported(Counts(s), TargetRank(p, |s|), i) <= Reported(Counts(s), TargetRank(q, |s|), j)
  {
    RankGrows(p, q, |s|);
    ReportedGrows(Counts(s), TargetRank(p, |s|), i, TargetRank(q, |s|), j);
  }

  // ---------------------------------------------------------------- minimum and maximum

  ghost function MinOf(s: seq<nat>): nat {
    if s == [] then UINT64_MAX
    else if s[|s| - 1] < MinOf(s[..|s| - 1]) then s[|s| - 1] else MinOf(s[..|s| - 1])
  }

  ghost function MaxOf(s: seq<nat>): nat {
    if s == [] then 0
    else if s[|s| - 1] > MaxOf(s[..|s| - 1]) then s[|s| - 1] else MaxOf(s[..|s| - 1])
  }

  ghost function Total(s: seq<nat>): nat {
    if s == [] then 0 else Total(s[..|s| - 1]) + s[|s| - 1]
  }

  /** They are the least and the greatest sample. */
  lemma {:induction false} MinMaxAre(s: seq<nat>)
    requires s != [] && forall x :: x in s ==> x <= UINT64_MAX
    ensures MinOf(s) in s && MaxOf(s) in s && forall x :: x in s ==> MinOf(s) <= x <= MaxOf(s)
  {
    var n := |s| - 1;
    assert s == s[..n] + [s[n]] && s[n] in s;
    assert forall x :: x in s[..n] ==> x in s;
    if n > 0 {
      MinMaxAre(s[..n]);
    } else {
      assert s[..n] == [] && MinOf([]) == UINT64_MAX && MaxOf([]) == 0;
    }
  }

  lemma {:induction false} JoinedExtremes(a: seq<nat>, b: seq<nat>)
    ensures MinOf(a + b) == if MinOf(b) < MinOf(a) then MinOf(b) else MinOf(a)
    ensures MaxOf(a + b) == if MaxOf(b) > MaxOf(a) then MaxOf(b) else MaxOf(a)
    ensures Total(a + b) == Total(a) + Total(b)
    decreases |b|
  {
    MinBound(a);
    if b == [] {
      assert a + b == a;
    } else {
      var n := |b| - 1;
      JoinedExtremes(a, b[..n]);
      assert (a + b)[..|a| + n] == a + b[..n];
    }
  }

  lemma {:induction false} MinBound(s: seq<nat>)
    ensures MinOf(s) <= UINT64_MAX
  {
    if s != [] {
      MinBound(s[..|s| - 1]);
    }
  }

  // ---------------------------------------------------------------- the histogram

  class Histogram {
    const buckets: array<nat>
    var totalCount: nat
    var totalSum: nat
    var minValue: nat
    var maxValue: nat

    ghost predicate Valid()
      reads this, buckets
    {
      buckets.Length == BUCKET_COUNT
    }

    /** The histogram is what recording these samples gives. */
    ghost predicate Represents(s: seq<nat>)
      reads this, buckets
    {
      && Valid() && buckets[..] == Counts(s) && totalCount == |s| && totalSum == Total(s)
      && minValue == MinOf(s) && maxValue == MaxOf(s) && forall x :: x in s ==> x <= UINT64_MAX
    }

    constructor ()
      ensures Represents([]) && fresh(buckets)
    {
      buckets := new nat[BUCKET_COUNT](i => 0);
      totalCount, totalSum, minValue, maxValue := 0, 0, UINT64_MAX, 0;
    }

    method RecordNs(value: nat, ghost s: seq<nat>)
      requires Represents(s) && value <= UINT64_MAX
      modifies this, buckets
      ensures Represents(s + [value])
    {
      ghost var more := s + [value];
      assert more[..|s|] == s;
      var i := ComputeBucketIndex(value);
      buckets[i] := buckets[i] + 1;
      totalCount := totalCount + 1;
      totalSum := totalSum + value;
      if value < minValue {
        minValue := value;
      }
      if value > maxValue {
        maxValue := value;
      }
      assert buckets[..] == Counts(more);
    }

    /** Merging gives the histogram of both sets of samples; a histogram may be merged into itself. */
    method Merge(other: Histogram, ghost s: seq<nat>, ghost s': seq<nat>)
      requires Represents(s) && other.Represents(s') && (other == this || other.buckets != buckets)
      modifies this, buckets
      ensures Represents(s + s')
    {
      for i := 0 to BUCKET_COUNT
        invariant forall j :: 0 <= j < BUCKET_COUNT ==>
                    buckets[j] == if j < i then old(buckets[j]) + old(other.buckets[j]) else old(buckets[j])
        invariant other == this || other.buckets[..] == old(other.buckets[..])
        invariant totalCount == old(totalCount) && totalSum == old(totalSum)
        invariant minValue == old(minValue) && maxValue == old(maxValue)
      {
        buckets[i] := buckets[i] + other.buckets[i];
      }
      totalCount := totalCount + other.totalCount;
      totalSum := totalSum + other.totalSum;
      if other.minValue < minValue {
        minValue := other.minValue;
      }
      if other.maxValue > maxValue {
        maxValue := other.maxValue;
      }
      JoinedExtremes(s, s');
      JoinedCounts(s, s');
      assert forall j :: 0 <= j < BUCKET_COUNT ==>
               old(buckets[..])[j] == Counts(s)[j] && old(other.buckets[..])[j] == Counts(s')[j];
      assert buckets[..] == Counts(s + s');
    }

    /** The value for percentile `p`: none of the samples gives zero. */
    method Percentile(p: real, ghost s: seq<nat>) returns (r: real, ghost k: nat, ghost i: nat)
      requires Represents(s)
      ensures s == [] ==> r == 0.0
      ensures s != [] && 0.0 < p <= 1.0 ==> LeastCover(k, p, |s|)
      ensures s != [] && p >= 1.0 ==> k == |s|
      ensures s != [] ==> k == TargetRank(p, |s|) && RankBucket(Counts(s), k, i) && r == Reported(Counts(s), k, i)
      ensures k > 0 ==> Proportional(Counts(s), k, i, r)
      ensures k > 0 ==> forall t :: SortedOf(t, s) ==>
                k <= |t| && i == BucketIndex(t[k - 1]) && LowerBound(i) as real <= r <= UpperBound(i) as real
      ensures s != [] ==> (k == 0 <==> p <= 0.0) && (p <= 0.0 ==> r == if 0 in s then 0.0 else 0.5)
    {
      hide LeastCover, Proportional;
      k, i := 0, 0;
      if totalCount == 0 {
        return 0.0, k, i;
      }
      var target := TargetRank(p, totalCount);
      k := target;
      var cumulative := 0;
      for j := 0 to BUCKET_COUNT
        invariant cumulative == Before(buckets[..], j) && (j == 0 || cumulative < target)
      {
        cumulative := cumulative + buckets[j];
        if cumulative >= target {
          i := j;
          RankOfSorted(s, k, i);
          RankCovers(p, |s|);
          if k > 0 {
            ReportedIsLinear(Counts(s), k, i);
          }
          RankZeroIff(p, |s|);
          ZeroBucket(s);
          RankZeroReports(Counts(s));
          if buckets[j] == 0 {
            return Midpoint(j), k, i;
          }
          var inBucket := target - (cumulative - buckets[j]);
          var fraction := inBucket as real / buckets[j] as real;
          var lower, upper := LowerBound(j), UpperBound(j);
          return Interpolated(fraction, lower as real, upper as real), k, i;
        }
      }
      AllCounted(s);
      assert false;
    }
  }

  lemma RankOfSorted(s: seq<nat>, k: nat, i: nat)
    requires k <= |s| && RankBucket(Counts(s), k, i) && forall x :: x in s ==> x <= UINT64_MAX
    ensures k > 0 ==> forall t :: SortedOf(t, s) ==>
              k <= |t| && i == BucketIndex(t[k - 1])
              && LowerBound(i) as real <= Reported(Counts(s), k, i) <= UpperBound(i) as real
  {
    if k > 0 {
      forall t | SortedOf(t, s)
        ensures k <= |t| && i == BucketIndex(t[k - 1])
        ensures LowerBound(i) as real <= Reported(Counts(s), k, i) <= UpperBound(i) as real
      {
        PercentileOfSorted(s, t, k, i);
      }
    }
  }

  lemma JoinedCounts(a: seq<nat>, b: seq<nat>)
    ensures forall j :: 0 <= j < BUCKET_COUNT ==> Counts(a + b)[j] == Counts(a)[j] + Counts(b)[j]
  {
    forall j | 0 <= j < BUCKET_COUNT
      ensures Counts(a + b)[j] == Counts(a)[j] + Counts(b)[j]
    {
      CountSplits(a, b, (x: nat) => BucketIndex(x) == j);
    }
  }

  lemma AllCounted(s: seq<nat>)
    ensures Before(Counts(s), BUCKET_COUNT) == |s|
  {
    BeforeCounts(s, BUCKET_COUNT);
    CountAll(s, (x: nat) => BucketIndex(x) < BUCKET_COUNT);
  }

  function Clamp(p: real): real {
    if p < 0.0 then 0.0 else if p > 1.0 then 1.0 else p
  }

  function Ceil(x: real): int {
    -((-x).Floor)
  }

  /** The rank a percentile asks for. */
  function TargetRank(p: real, total: nat): (k: nat)
    ensures k <= total
  {
    RankFits(Clamp(p), total);
    Ceil(Clamp(p) * total as real)
  }

  lemma ProductSign(a: real, b: real)
    requires a >= 0.0 && b >= 0.0
    ensures a * b >= 0.0
  {
  }

  lemma RankFits(p: real, total: nat)
    requires 0.0 <= p <= 1.0
    ensures 0 <= Ceil(p * total as real) <= total
  {
    ProductSign(p, total as real);
    ProductSign(1.0 - p, total as real);
    assert (1.0 - p) * total as real == total as real - p * total as real;
  }

  /** The first `k` samples are at least the fraction `p` of all, and one fewer are not. */
  predicate LeastCover(k: nat, p: real, total: nat) {
    k as real - 1.0 < p * total as real <= k as real
  }

  /** A percentile asks for the least rank that covers it; outside 0 to 1 it is taken as the nearer end. */
  lemma RankCovers(p: real, total: nat)
    ensures p <= 0.0 ==> TargetRank(p, total) == 0
    ensures 0.0 < p <= 1.0 ==> LeastCover(TargetRank(p, total), p, total)
    ensures p >= 1.0 ==> TargetRank(p, total) == total
  {
    if p >= 1.0 {
      assert Clamp(p) * total as real == total as real;
    }
  }

  /** Only a percentile of zero or below asks for rank zero. */
  lemma RankZeroIff(p: real, total: nat)
    requires total > 0
    ensures TargetRank(p, total) == 0 <==> p <= 0.0
  {
    if p > 0.0 {
      ProductPositive(Clamp(p), total as real);
    }
  }

  lemma ProductPositive(a: real, b: real)
    requires a > 0.0 && b > 0.0
    ensures a * b > 0.0
  {
  }

  /** Bucket zero holds the zeros. */
  lemma ZeroBucket(s: seq<nat>)
    ensures Counts(s)[0] == 0 <==> 0 !in s
  {
    ZeroCount(s);
  }

  lemma {:induction false} ZeroCount(s: seq<nat>)
    ensures Count(s, (x: nat) => BucketIndex(x) == 0) == 0 <==> 0 !in s
  {
    if s != [] {
      var n := |s| - 1;
      ZeroCount(s[..n]);
      assert s == s[..n] + [s[n]];
      assert BucketIndex(s[n]) == 0 <==> s[n] == 0;
    }
  }

  /** A higher percentile asks for a rank that is not lower. */
  lemma RankGrows(p: real, q: real, total: nat)
    requires p <= q
    ensures TargetRank(p, total) <= TargetRank(q, total)
  {
    ProductSign(Clamp(q) - Clamp(p), total as real);
    assert (Clamp(q) - Clamp(p)) * total as real == Clamp(q) * total as real - Clamp(p) * total as real;
  }
}
