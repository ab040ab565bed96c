/** Latency aggregates: counters and a fixed histogram, their merging, and the
    percentiles read off the histogram. */
module Latency {
  const BOUNDS: seq<int> := [10, 25, 50, 100, 250, 500, 1_000, 2_500, 5_000, 10_000, 30_000]
  const BUCKETS := 12
  const MAX_DURATION := 3_600_000

  datatype Sample = Sample(duration: int, failed: bool)

  datatype Aggregate = Aggregate(requests: nat, errors: nat, sum: int, max: int, buckets: seq<nat>)

  /** The first bucket whose bound is not exceeded; the last has no bound. */
  method BucketIndex(duration: int) returns (i: nat)
    ensures i == Bucket(duration)
  {
    i := 0;
    while i < |BOUNDS|
      invariant i <= |BOUNDS| && forall j :: 0 <= j < i ==> duration > BOUNDS[j]
    {
      if duration <= BOUNDS[i] {
        BucketIs(duration, i);
        return;
      }
      i := i + 1;
    }
    BucketIs(duration, i);
  }

  lemma BoundsIncrease()
    ensures forall i, j :: 0 <= i < j < |BOUNDS| ==> BOUNDS[i] < BOUNDS[j]
  {}

  /** How many bounds a duration exceeds. */
  function Bucket(duration: int): (i: nat)
    ensures i < BUCKETS
  {
    Exceeded(duration, |BOUNDS|)
  }

  function Exceeded(duration: int, n: nat): (i: nat)
    requires n <= |BOUNDS|
    ensures i <= n
  {
    if n == 0 then 0 else Exceeded(duration, n - 1) + if duration > BOUNDS[n - 1] then 1 else 0
  }

  lemma {:induction false} ExceededIs(duration: int, n: nat, i: nat)
    requires n <= |BOUNDS| && i <= n
    requires forall j :: 0 <= j < n ==> (duration > BOUNDS[j] <==> j < i)
    ensures Exceeded(duration, n) == i
    decreases n
  {
    if n > 0 { ExceededIs(duration, n - 1, if i == n then n - 1 else i); }
  }

  /** The bucket is the one between its two bounds. */
  lemma BucketIs(duration: int, i: nat)
    requires i <= |BOUNDS|
    requires (forall j :: 0 <= j < i ==> duration > BOUNDS[j]) && (i < |BOUNDS| ==> duration <= BOUNDS[i])
    ensures Bucket(duration) == i
  {
    BoundsIncrease();
    ExceededIs(duration, |BOUNDS|, i);
  }

  lemma BucketBounds(duration: int)
    ensures var i := Bucket(duration);
            (forall j :: 0 <= j < |BOUNDS| ==> (duration > BOUNDS[j] <==> j < i))
  {
    BoundsIncrease();
    var i := BucketOf(duration);
    BucketIs(duration, i);
  }

  lemma BucketOf(duration: int) returns (i: nat)
    ensures i <= |BOUNDS|
    ensures forall j :: 0 <= j < |BOUNDS| ==> (duration > BOUNDS[j] <==> j < i)
  {
    BoundsIncrease();
    i := 0;
    while i < |BOUNDS| && duration > BOUNDS[i]
      invariant i <= |BOUNDS| && forall j :: 0 <= j < i ==> duration > BOUNDS[j]
    {
      i := i + 1;
    }
  }

  // ---- The one-pass aggregate ----

  const Empty := Aggregate(0, 0, 0, 0, [0, 0, 0, 0, 0, 0, 0, 0, 0, 0, 0, 0])

  function Larger(a: int, b: int): int {
    if b > a then b else a
  }

  function Merge(a: Aggregate, b: Aggregate): (m: Aggregate)
    requires |a.buckets| == BUCKETS && |b.buckets| == BUCKETS
    ensures |m.buckets| == BUCKETS
  {
    Aggregate(a.requests + b.requests, a.errors + b.errors, a.sum + b.sum, Larger(a.max, b.max),
              seq(BUCKETS, i requires 0 <= i < BUCKETS => a.buckets[i] + b.buckets[i]))
  }

  function Single(s: Sample): (a: Aggregate)
    ensures |a.buckets| == BUCKETS
  {
    Aggregate(1, if s.failed then 1 else 0, s.duration, Larger(0, s.duration),
              seq(BUCKETS, i requires 0 <= i < BUCKETS => if i == Bucket(s.duration) then 1 else 0))
  }

  /** What the counters must say of these samples, read in order. */
  function OnePass(samples: seq<Sample>): (a: Aggregate)
    ensures |a.buckets| == BUCKETS
    decreases |samples|
  {
    if samples == [] then Empty
    else Merge(OnePass(samples[..|samples| - 1]), Single(samples[|samples| - 1]))
  }

  lemma MergeLaws(a: Aggregate, b: Aggregate, c: Aggregate)
    requires |a.buckets| == BUCKETS && |b.buckets| == BUCKETS && |c.buckets| == BUCKETS
    ensures Merge(a, b) == Merge(b, a)
    ensures Merge(Merge(a, b), c) == Merge(a, Merge(b, c))
    ensures a.max >= 0 ==> Merge(a, Empty) == a && Merge(Empty, a) == a
  {}

  lemma {:induction false} MaxNotNegative(samples: seq<Sample>)
    ensures OnePass(samples).max >= 0
    decreases |samples|
  {
    if samples != [] { MaxNotNegative(samples[..|samples| - 1]); }
  }

  /** Merging two aggregates is aggregating both sample lists in one pass. */
  lemma {:induction false} MergeIsOnePass(xs: seq<Sample>, ys: seq<Sample>)
    ensures Merge(OnePass(xs), OnePass(ys)) == OnePass(xs + ys)
    decreases |ys|
  {
    if ys == [] {
      assert xs + ys == xs;
      MaxNotNegative(xs);
      MergeLaws(OnePass(xs), Empty, Empty);
    } else {
      var before, last := ys[..|ys| - 1], ys[|ys| - 1];
      assert (xs + ys)[..|xs + ys| - 1] == xs + before;
      MergeIsOnePass(xs, before);
      MergeLaws(OnePass(xs), OnePass(before), Single(last));
    }
  }

  /** Any grouping of merges over any split into batches. */
  datatype Grouping = Batch(samples: seq<Sample>) | Both(left: Grouping, right: Grouping)

  function Merged(g: Grouping): (a: Aggregate)
    ensures |a.buckets| == BUCKETS
  {
    match g
    case Batch(samples) => OnePass(samples)
    case Both(l, r) => Merge(Merged(l), Merged(r))
  }

  function SamplesIn(g: Grouping): seq<Sample> {
    match g
    case Batch(samples) => samples
    case Both(l, r) => SamplesIn(l) + SamplesIn(r)
  }

  lemma Cancel(a: multiset<Sample>, b: multiset<Sample>, s: Sample)
    requires a + multiset{s} == b + multiset{s}
    ensures a == b
  {
    assert a == (a + multiset{s}) - multiset{s};
    assert b == (b + multiset{s}) - multiset{s};
  }

  lemma {:induction false} OrderDoesNotMatter(xs: seq<Sample>, ys: seq<Sample>)
    requires multiset(xs) == multiset(ys)
    ensures OnePass(xs) == OnePass(ys)
    decreases |xs|
  {
    if xs != [] {
      var before, last := xs[..|xs| - 1], xs[|xs| - 1];
      assert xs == before + [last];
      assert last in multiset(ys);
      var i :| 0 <= i < |ys| && ys[i] == last;
      var left, right := ys[..i], ys[i + 1..];
      assert ys == left + [last] + right;
      assert multiset(ys) == multiset(left) + multiset{last} + multiset(right);
      assert multiset(xs) == multiset(before) + multiset{last};
      assert multiset(left + right) == multiset(left) + multiset(right);
      Cancel(multiset(before), multiset(left + right), last);
      OrderDoesNotMatter(before, left + right);
      MergeIsOnePass(left, right);
      MergeIsOnePass(left, [last]);
      MergeIsOnePass(left + [last], right);
      OneSample(last);
      MergeLaws(OnePass(left), Single(last), OnePass(right));
      MergeLaws(Single(last), OnePass(right), Empty);
      MergeLaws(OnePass(left), OnePass(right), Single(last));
    } else {
      assert multiset(ys) == multiset{};
      assert |multiset(ys)| == |ys|;
    }
  }

  lemma SingleMax(s: Sample)
    ensures Single(s).max >= 0
  {}

  lemma OneSample(s: Sample)
    ensures OnePass([s]) == Single(s)
  {
    hide Merge, Single, Bucket;
    assert [s][..0] == [];
    MergeLaws(Single(s), Empty, Empty);
    SingleMax(s);
  }

  /** However samples are split into batches and the batches merged, the result is
      the aggregate of all samples in one pass. */
  lemma {:induction false} MergedIsOnePass(g: Grouping, samples: seq<Sample>)
    requires multiset(SamplesIn(g)) == multiset(samples)
    ensures Merged(g) == OnePass(samples)
    decreases g
  {
    OrderDoesNotMatter(SamplesIn(g), samples);
    match g
    case Batch(_) =>
    case Both(l, r) =>
      MergedIsOnePass(l, SamplesIn(l));
      MergedIsOnePass(r, SamplesIn(r));
      MergeIsOnePass(SamplesIn(l), SamplesIn(r));
  }

  // ---- What the counters mean ----

  function CountAtMost(samples: seq<Sample>, v: int): nat
    decreases |samples|
  {
    if samples == [] then 0
    else CountAtMost(samples[..|samples| - 1], v) + if samples[|samples| - 1].duration <= v then 1 else 0
  }

  function Prefix(buckets: seq<nat>, n: nat): (total: nat)
    requires n <= |buckets|
  {
    if n == 0 then 0 else Prefix(buckets, n - 1) + buckets[n - 1]
  }

  lemma {:induction false} PrefixMerge(a: Aggregate, b: Aggregate, n: nat)
    requires |a.buckets| == BUCKETS && |b.buckets| == BUCKETS && n <= BUCKETS
    ensures Prefix(Merge(a, b).buckets, n) == Prefix(a.buckets, n) + Prefix(b.buckets, n)
    decreases n
  {
    if n > 0 { PrefixMerge(a, b, n - 1); }
  }

  lemma {:induction false} PrefixSingle(s: Sample, n: nat)
    requires n <= BUCKETS
    ensures Prefix(Single(s).buckets, n) == if Bucket(s.duration) < n then 1 else 0
    decreases n
  {
    if n > 0 { PrefixSingle(s, n - 1); }
  }

  function TotalDuration(samples: seq<Sample>): int
    decreases |samples|
  {
    if samples == [] then 0 else TotalDuration(samples[..|samples| - 1]) + samples[|samples| - 1].duration
  }

  /** The samples up to a duration, each once. */
  lemma {:induction false} CountAtMostIs(samples: seq<Sample>, v: int)
    ensures CountAtMost(samples, v) == |set i | 0 <= i < |samples| && samples[i].duration <= v|
    decreases |samples|
  {
    if samples != [] {
      var before, n := samples[..|samples| - 1], |samples| - 1;
      CountAtMostIs(before, v);
      assert (set i | 0 <= i < |samples| && samples[i].duration <= v)
          == (set i | 0 <= i < |before| && before[i].duration <= v) + if samples[n].duration <= v then {n} else {};
    }
  }

  /** Errors are the samples that failed, and the sum is that of all durations. */
  lemma {:induction false} ErrorsAndSum(samples: seq<Sample>)
    ensures OnePass(samples).errors == |set i | 0 <= i < |samples| && samples[i].failed|
    ensures OnePass(samples).sum == TotalDuration(samples)
    decreases |samples|
  {
    if samples != [] {
      var before, n := samples[..|samples| - 1], |samples| - 1;
      ErrorsAndSum(before);
      hide Bucket;
      assert (set i | 0 <= i < |samples| && samples[i].failed)
          == (set i | 0 <= i < |before| && before[i].failed) + if samples[n].failed then {n} else {};
    }
  }

  /** The bounds of the buckets, in milliseconds; the last bucket has none. */
  lemma BucketOfDuration(d: int)
    ensures Bucket(d) == if d <= 10 then 0 else if d <= 25 then 1 else if d <= 50 then 2 else if d <= 100 then 3
                         else if d <= 250 then 4 else if d <= 500 then 5 else if d <= 1_000 then 6 else if d <= 2_500 then 7
                         else if d <= 5_000 then 8 else if d <= 10_000 then 9 else if d <= 30_000 then 10 else 11
  {
    var i := if d <= 10 then 0 else if d <= 25 then 1 else if d <= 50 then 2 else if d <= 100 then 3
             else if d <= 250 then 4 else if d <= 500 then 5 else if d <= 1_000 then 6 else if d <= 2_500 then 7
             else if d <= 5_000 then 8 else if d <= 10_000 then 9 else if d <= 30_000 then 10 else 11;
    hide Bucket;
    BucketIs(d, i);
  }

  /** The first n + 1 buckets hold the samples up to the n-th bound, all buckets hold
      every sample, and failures are among the requests. */
  lemma {:induction false} CountersMean(samples: seq<Sample>)
    ensures var a := OnePass(samples);
            && a.requests == |samples| && a.errors <= a.requests
            && Prefix(a.buckets, BUCKETS) == a.requests
            && (forall n :: 0 <= n < |BOUNDS| ==> Prefix(a.buckets, n + 1) == CountAtMost(samples, BOUNDS[n]))
            && (forall s :: s in samples ==> s.duration <= a.max)
            && (a.max == 0 || exists s :: s in samples && s.duration == a.max)
    decreases |samples|
  {
    if samples == [] {
      EmptyPrefix(BUCKETS);
      forall n | 0 <= n < |BOUNDS| ensures Prefix(Empty.buckets, n + 1) == CountAtMost(samples, BOUNDS[n]) { EmptyPrefix(n + 1); }
    } else {
      var before, last := samples[..|samples| - 1], samples[|samples| - 1];
      CountersMean(before);
      assert samples == before + [last];
      PrefixMerge(OnePass(before), Single(last), BUCKETS);
      PrefixSingle(last, BUCKETS);
      BucketBounds(last.duration);
      forall n | 0 <= n < |BOUNDS| ensures Prefix(OnePass(samples).buckets, n + 1) == CountAtMost(samples, BOUNDS[n]) {
        PrefixMerge(OnePass(before), Single(last), n + 1);
        PrefixSingle(last, n + 1);
      }
    }
  }

  lemma {:induction false} EmptyPrefix(n: nat)
    requires n <= BUCKETS
    ensures Prefix(Empty.buckets, n) == 0
    decreases n
  {
    if n > 0 { EmptyPrefix(n - 1); }
  }

  // ---- Percentiles ----

  /** The rank asked for: the percentage of the requests, rounded up, at least 1. */
  function Target(requests: nat, percent: nat): (t: nat)
    ensures t >= 1 && 100 * t >= requests * percent
    ensures t > 1 ==> 100 * (t - 1) < requests * percent
  {
    var t := (requests * percent + 99) / 100;
    if t < 1 then 1 else t
  }

  /** percentileFromHistogram. */
  method Percentile(a: Aggregate, percent: nat) returns (r: int)
    requires |a.buckets| == BUCKETS
    ensures r == PercentileOf(a, percent) && (a.requests == 0 ==> r == 0)
  {
    if a.requests == 0 {
      return 0;
    }
    var target := Target(a.requests, percent);
    var seen := 0;
    var i := 0;
    while i < BUCKETS
      invariant 0 <= i <= BUCKETS && seen == Prefix(a.buckets, i) < target
    {
      seen := seen + a.buckets[i];
      if seen >= target {
        FirstIs(a.buckets, target, i);
        if i < |BOUNDS| {
          return BOUNDS[i];
        }
        return if a.max > 0 then a.max else BOUNDS[|BOUNDS| - 1];
      }
      i := i + 1;
    }
    FirstIs(a.buckets, target, BUCKETS);
    return a.max;
  }

  /** The first bucket by whose end `target` samples have been seen. */
  function First(buckets: seq<nat>, target: nat, from: nat): (i: nat)
    requires from <= |buckets|
    ensures from <= i <= |buckets|
    decreases |buckets| - from
  {
    if from == |buckets| || Prefix(buckets, from + 1) >= target then from else First(buckets, target, from + 1)
  }

  function PercentileOf(a: Aggregate, percent: nat): int
    requires |a.buckets| == BUCKETS
  {
    if a.requests == 0 then 0
    else
      var i := First(a.buckets, Target(a.requests, percent), 0);
      if i < |BOUNDS| then BOUNDS[i]
      else if i == |BOUNDS| && a.max <= 0 then BOUNDS[|BOUNDS| - 1]
      else a.max
  }

  lemma {:induction false} PrefixGrows(buckets: seq<nat>, m: nat, n: nat)
    requires m <= n <= |buckets|
    ensures Prefix(buckets, m) <= Prefix(buckets, n)
    decreases n
  {
    if m < n { PrefixGrows(buckets, m, n - 1); }
  }

  lemma {:induction false} FirstFrom(buckets: seq<nat>, target: nat, from: nat, i: nat)
    requires from <= i <= |buckets| && Prefix(buckets, i) < target && (i == |buckets| || Prefix(buckets, i + 1) >= target)
    ensures First(buckets, target, from) == i
    decreases i - from
  {
    if from < i {
      PrefixGrows(buckets, from + 1, i);
      FirstFrom(buckets, target, from + 1, i);
    }
  }

  lemma FirstIs(buckets: seq<nat>, target: nat, i: nat)
    requires i <= |buckets| && Prefix(buckets, i) < target && (i == |buckets| || Prefix(buckets, i + 1) >= target)
    ensures First(buckets, target, 0) == i
  {
    FirstFrom(buckets, target, 0, i);
  }

  /** v is the nearest-rank value: fewer than `target` samples lie below it, and at
      least that many up to it. */
  ghost predicate NearestRank(samples: seq<Sample>, target: nat, v: int) {
    CountAtMost(samples, v - 1) < target <= CountAtMost(samples, v)
  }

  lemma {:induction false} CountGrows(samples: seq<Sample>, u: int, v: int)
    requires u <= v
    ensures CountAtMost(samples, u) <= CountAtMost(samples, v)
    decreases |samples|
  {
    if samples != [] { CountGrows(samples[..|samples| - 1], u, v); }
  }

  lemma {:induction false} CountAll(samples: seq<Sample>, v: int)
    requires forall s :: s in samples ==> s.duration <= v
    ensures CountAtMost(samples, v) == |samples|
    decreases |samples|
  {
    if samples != [] { CountAll(samples[..|samples| - 1], v); }
  }

  lemma NoneAboveMax(samples: seq<Sample>, target: nat, v: int)
    requires NearestRank(samples, target, v)
    ensures v <= OnePass(samples).max
  {
    var top := OnePass(samples).max;
    CountersMean(samples);
    hide OnePass;
    CountAll(samples, top);
    CountTotal(samples, v);
    if v > top { CountGrows(samples, top, v - 1); }
  }

  lemma {:induction false} CountTotal(samples: seq<Sample>, v: int)
    ensures CountAtMost(samples, v) <= |samples|
    decreases |samples|
  {
    if samples != [] { CountTotal(samples[..|samples| - 1], v); }
  }

  lemma BucketReached(samples: seq<Sample>, target: nat, v: int)
    requires NearestRank(samples, target, v)
    ensures First(OnePass(samples).buckets, target, 0) == Bucket(v)
  {
    var a, i := OnePass(samples), Bucket(v);
    CountersMean(samples);
    BucketBounds(v);
    hide OnePass, Bucket;
    if i > 0 { CountGrows(samples, BOUNDS[i - 1], v - 1); }
    if i < |BOUNDS| { CountGrows(samples, v, BOUNDS[i]); } else { CountTotal(samples, v); }
    FirstIs(a.buckets, target, i);
  }

  /** Every rank of a sample has its nearest-rank value, and only one. */
  lemma NearestRankExists(samples: seq<Sample>, target: nat) returns (v: int)
    requires 1 <= target <= |samples|
    ensures NearestRank(samples, target, v)
    ensures forall u :: NearestRank(samples, target, u) ==> u == v
  {
    var low := Lowest(samples);
    v := OnePass(samples).max;
    CountersMean(samples);
    CountAll(samples, v);
    hide OnePass;
    CountNone(samples, low - 1);
    if v < low { CountGrows(samples, v, low - 1); }
    while CountAtMost(samples, v - 1) >= target
      invariant low <= v && CountAtMost(samples, v) >= target
      decreases v - low
    {
      if v == low { CountNone(samples, low - 1); }
      v := v - 1;
    }
    forall u | NearestRank(samples, target, u) ensures u == v {
      if u < v { CountGrows(samples, u, v - 1); }
      if v < u { CountGrows(samples, v, u - 1); }
    }
  }

  lemma {:induction false} Lowest(samples: seq<Sample>) returns (low: int)
    requires samples != []
    ensures forall s :: s in samples ==> s.duration >= low
    decreases |samples|
  {
    var before, last := samples[..|samples| - 1], samples[|samples| - 1];
    low := last.duration;
    assert samples == before + [last];
    if before != [] {
      var rest := Lowest(before);
      if rest < low { low := rest; }
    }
  }

  lemma {:induction false} CountNone(samples: seq<Sample>, v: int)
    requires forall s :: s in samples ==> s.duration > v
    ensures CountAtMost(samples, v) == 0
    decreases |samples|
  {
    if samples != [] { CountNone(samples[..|samples| - 1], v); }
  }

  /** The reported percentile is the bound of the bucket that holds the exact
      nearest-rank value, or the largest duration when that is the last bucket;
      so it is never below the exact value. */
  lemma PercentileIsBound(samples: seq<Sample>, percent: nat, v: int)
    requires samples != [] && NearestRank(samples, Target(|samples|, percent), v)
    ensures var r := PercentileOf(OnePass(samples), percent);
            && r == (if Bucket(v) < |BOUNDS| then BOUNDS[Bucket(v)] else OnePass(samples).max)
            && r >= v
  {
    var target := Target(|samples|, percent);
    CountersMean(samples);
    BucketReached(samples, target, v);
    BucketBounds(v);
    NoneAboveMax(samples, target, v);
    hide OnePass, Bucket, NearestRank, Prefix, CountAtMost, First, Target;
  }

  lemma {:induction false} FirstGrows(buckets: seq<nat>, t: nat, u: nat, from: nat)
    requires t <= u && from <= |buckets|
    ensures First(buckets, t, from) <= First(buckets, u, from)
    decreases |buckets| - from
  {
    if from < |buckets| && Prefix(buckets, from + 1) < t { FirstGrows(buckets, t, u, from + 1); }
  }

  lemma TargetGrows(requests: nat, p: nat, q: nat)
    requires p <= q <= 100 && requests > 0
    ensures 1 <= Target(requests, p) <= Target(requests, q) <= requests
  {
    assert requests * p <= requests * q <= requests * 100;
  }

  lemma {:induction false} FirstReaches(buckets: seq<nat>, target: nat, from: nat)
    requires from <= |buckets| && Prefix(buckets, from) < target <= Prefix(buckets, |buckets|)
    ensures var i := First(buckets, target, from);
            i < |buckets| && Prefix(buckets, i) < target
    decreases |buckets| - from
  {
    if from < |buckets| && Prefix(buckets, from + 1) < target { FirstReaches(buckets, target, from + 1); }
  }

  /** The overflow bucket is reached only when a duration lies beyond every bound. */
  lemma OverflowMeansLong(samples: seq<Sample>, target: nat)
    requires 1 <= target <= |samples|
    ensures var i := First(OnePass(samples).buckets, target, 0);
            i < BUCKETS && (i == |BOUNDS| ==> OnePass(samples).max > BOUNDS[|BOUNDS| - 1])
  {
    var a := OnePass(samples);
    CountersMean(samples);
    hide OnePass;
    FirstReaches(a.buckets, target, 0);
    if a.max <= BOUNDS[|BOUNDS| - 1] { CountAll(samples, BOUNDS[|BOUNDS| - 1]); }
    assert Prefix(a.buckets, |BOUNDS|) == CountAtMost(samples, BOUNDS[|BOUNDS| - 1]);
  }

  /** p50 <= p95 <= p99: a larger percentage never reports less. */
  lemma PercentilesOrdered(samples: seq<Sample>, p: nat, q: nat)
    requires p <= q <= 100
    ensures PercentileOf(OnePass(samples), p) <= PercentileOf(OnePass(samples), q)
  {
    CountersMean(samples);
    if samples != [] {
      var t, u := Target(|samples|, p), Target(|samples|, q);
      TargetGrows(|samples|, p, q);
      FirstGrows(OnePass(samples).buckets, t, u, 0);
      OverflowMeansLong(samples, t);
      OverflowMeansLong(samples, u);
      BoundsIncrease();
      hide OnePass, First, Target, Prefix, CountAtMost;
    }
  }
}
