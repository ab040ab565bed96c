/** Analyze reports: matching rows are counted in slots, and the slots folded into
    the buckets of a window. */
module Analyze {
  import opened Rows
  import opened Intervals

  const MAX_POINTS := 366

  // ---- The window ----

  /** Bucket starts: increasing multiples of the slot, the first at the window's
      start, all before its end. */
  ghost predicate Window(starts: seq<int>, from: int, to: int, slot: int) {
    && slot > 0 && Increasing(starts) && starts != [] && starts[0] == from
    && (forall i :: 0 <= i < |starts| ==> starts[i] % slot == 0 && starts[i] < to)
  }

  /** The bucket after each instant: later, and on a slot boundary. */
  ghost predicate Steps(next: int -> int, slot: int) {
    slot > 0 && forall t :: t % slot == 0 ==> next(t) > t && next(t) % slot == 0
  }

  /** The loop that lays out the buckets, refusing a window with too many. */
  method BucketStarts(from: int, to: int, next: int -> int, slot: int) returns (starts: seq<int>, tooMany: bool)
    requires Steps(next, slot) && from % slot == 0 && from < to
    ensures !tooMany ==> Window(starts, from, to, slot) && |starts| <= 366
    ensures forall i :: 0 < i < |starts| ==> starts[i] == next(starts[i - 1])
    ensures !tooMany ==> next(starts[|starts| - 1]) >= to
    ensures tooMany ==> |starts| == 367 && Window(starts, from, to, slot)
  {
    starts, tooMany := [], false;
    var at := from;
    while at < to
      invariant at % slot == 0 && |starts| <= MAX_POINTS
      invariant if starts == [] then at == from else Window(starts, from, to, slot) && at == next(starts[|starts| - 1])
      invariant forall i :: 0 < i < |starts| ==> starts[i] == next(starts[i - 1])
      decreases (to - at)
    {
      starts := starts + [at];
      if |starts| > MAX_POINTS {
        tooMany := true;
        return;
      }
      at := next(at);
    }
  }

  /** Where bucket i ends. */
  function End(starts: seq<int>, to: int, i: nat): int
    requires i < |starts|
  {
    if i + 1 < |starts| then starts[i + 1] else to
  }

  // ---- Slots ----

  /** Integer division as SQL has it: toward zero. */
  function SlotOf(t: int, slot: int): int
    requires slot > 0
  {
    if t >= 0 then t / slot else -((-t) / slot)
  }

  function InSlot(times: seq<int>, slot: int, k: int, from: int, to: int): nat
    requires slot > 0
    decreases |times|
  {
    if times == [] then 0
    else
      var last := times[|times| - 1];
      InSlot(times[..|times| - 1], slot, k, from, to) + if from <= last < to && SlotOf(last, slot) == k then 1 else 0
  }

  /** AnalyzeSlotCounts: COUNT(*) GROUP BY slot over the rows in [from, to). */
  method SlotCounts(times: seq<int>, from: int, to: int, slot: int) returns (slots: map<int, nat>)
    requires slot > 0
    ensures IsSlots(slots, times, from, to, slot)
  {
    slots := map[];
    var i := 0;
    while i < |times|
      invariant 0 <= i <= |times| && IsSlots(slots, times[..i], from, to, slot)
    {
      var t := times[i];
      assert times[..i + 1][..i] == times[..i];
      if from <= t < to {
        var k := SlotOf(t, slot);
        slots := slots[k := 1 + if k in slots then slots[k] else 0];
      }
      i := i + 1;
    }
    assert times[..i] == times;
  }

  ghost predicate IsSlots(slots: map<int, nat>, times: seq<int>, from: int, to: int, slot: int)
    requires slot > 0
  {
    && (forall k :: k in slots ==> slots[k] == InSlot(times, slot, k, from, to) && slots[k] > 0)
    && (forall k :: k !in slots ==> InSlot(times, slot, k, from, to) == 0)
  }

  // ---- Folding slots into buckets ----

  /** sort.Search for the first start after `at`, less one. */
  method BucketAt(starts: seq<int>, at: int) returns (i: int)
    requires Increasing(starts)
    ensures -1 <= i < |starts|
    ensures i >= 0 ==> starts[i] <= at
    ensures forall j :: i < j < |starts| ==> starts[j] > at
  {
    var lo, hi := 0, |starts|;
    while lo < hi
      invariant 0 <= lo <= hi <= |starts|
      invariant forall j :: 0 <= j < lo ==> starts[j] <= at
      invariant forall j :: hi <= j < |starts| ==> starts[j] > at
    {
      var mid := (lo + hi) / 2;
      if starts[mid] > at { hi := mid; } else { lo := mid + 1; }
    }
    i := lo - 1;
  }

  /** Rows of [a, b) whose slot has been folded in. */
  function Folded(times: seq<int>, slot: int, done: set<int>, a: int, b: int): nat
    requires slot > 0
    decreases |times|
  {
    if times == [] then 0
    else
      var last := times[|times| - 1];
      Folded(times[..|times| - 1], slot, done, a, b) + if a <= last < b && SlotOf(last, slot) in done then 1 else 0
  }

  lemma {:induction false} FoldOneMore(times: seq<int>, slot: int, done: set<int>, k: int, a: int, b: int)
    requires slot > 0 && k !in done
    ensures Folded(times, slot, done + {k}, a, b) == Folded(times, slot, done, a, b) + InSlot(times, slot, k, a, b)
    decreases |times|
  {
    if times != [] { FoldOneMore(times[..|times| - 1], slot, done, k, a, b); }
  }

  lemma {:induction false} FoldNone(times: seq<int>, slot: int, a: int, b: int)
    requires slot > 0
    ensures Folded(times, slot, {}, a, b) == 0
    decreases |times|
  {
    if times != [] { FoldNone(times[..|times| - 1], slot, a, b); }
  }

  /** With every slot folded in, every row has been counted. */
  lemma {:induction false} FoldAll(times: seq<int>, slot: int, done: set<int>, a: int, b: int)
    requires slot > 0 && forall k :: k !in done ==> InSlot(times, slot, k, a, b) == 0
    ensures Folded(times, slot, done, a, b) == Count(times, a, b)
    decreases |times|
  {
    if times != [] {
      var before, last := times[..|times| - 1], times[|times| - 1];
      forall k | k !in done ensures InSlot(before, slot, k, a, b) == 0 {
        assert InSlot(times, slot, k, a, b) == 0;
      }
      FoldAll(before, slot, done, a, b);
      assert InSlot(times, slot, SlotOf(last, slot), a, b) == 0 || SlotOf(last, slot) in done;
    }
  }

  /** A part of an interval holds no more of a slot than the whole. */
  lemma {:induction false} SlotWithin(times: seq<int>, slot: int, k: int, from: int, a: int, b: int, to: int)
    requires slot > 0 && from <= a && b <= to
    ensures InSlot(times, slot, k, a, b) <= InSlot(times, slot, k, from, to)
    decreases |times|
  {
    if times != [] { SlotWithin(times[..|times| - 1], slot, k, from, a, b, to); }
  }

  predicate Positive(times: seq<int>) {
    forall i :: 0 <= i < |times| ==> times[i] > 0
  }

  /** All of a slot's rows, or none, lie in an interval on slot boundaries. */
  lemma {:induction false} SlotWhole(times: seq<int>, slot: int, k: int, from: int, to: int, a: int, b: int)
    requires slot > 0 && Positive(times) && from <= a && b <= to
    requires a % slot == 0 && (b % slot == 0 || b == to)
    ensures InSlot(times, slot, k, a, b) == if a <= k * slot < b then InSlot(times, slot, k, from, to) else 0
    decreases |times|
  {
    if times != [] {
      var last := times[|times| - 1];
      SlotWhole(times[..|times| - 1], slot, k, from, to, a, b);
      SlotSpan(last, slot, k);
      Aligned(a, slot, k);
      Aligned(b, slot, k);
    }
  }

  lemma Scaled(a: int, b: int, slot: int)
    requires slot > 0 && a < b
    ensures a * slot + slot <= b * slot
  {
    assert (a + 1) * slot <= b * slot;
  }

  /** A positive instant lies in its slot's span. */
  lemma SlotSpan(t: int, slot: int, k: int)
    requires slot > 0 && t > 0
    ensures SlotOf(t, slot) == k <==> k * slot <= t < k * slot + slot
  {
    var q := t / slot;
    assert q * slot <= t < q * slot + slot;
    if k < q { Scaled(k, q, slot); }
    if k > q { Scaled(q, k, slot); }
  }

  /** No multiple of the slot lies strictly inside a slot's span. */
  lemma Aligned(a: int, slot: int, k: int)
    requires slot > 0
    ensures a % slot == 0 ==> a <= k * slot || a >= k * slot + slot
  {
    var q := a / slot;
    assert a == q * slot + a % slot;
    if q < k { Scaled(q, k, slot); }
    if k < q { Scaled(k, q, slot); }
  }

  /** The series: one bucket per start, and the total. */
  ghost predicate Exact(counts: seq<nat>, total: nat, starts: seq<int>, to: int, times: seq<int>) {
    && |counts| == |starts| && (starts != [] ==> total == Count(times, starts[0], to))
    && forall i :: 0 <= i < |starts| ==> counts[i] == Count(times, starts[i], End(starts, to, i))
  }

  /** The series after some of the slots. */
  ghost predicate Partly(counts: seq<nat>, total: nat, starts: seq<int>, to: int, slot: int, times: seq<int>, done: set<int>)
    requires slot > 0 && starts != []
  {
    && |counts| == |starts| && total == Folded(times, slot, done, starts[0], to)
    && forall i :: 0 <= i < |starts| ==> counts[i] == Folded(times, slot, done, starts[i], End(starts, to, i))
  }

  lemma BucketsAligned(starts: seq<int>, to: int, slot: int, i: nat)
    requires starts != [] && Window(starts, starts[0], to, slot) && i < |starts|
    ensures starts[0] <= starts[i] < End(starts, to, i) <= to
    ensures starts[i] % slot == 0 && (End(starts, to, i) % slot == 0 || End(starts, to, i) == to)
  {}

  /** A slot that holds anything starts inside the window. */
  lemma SlotStartsInside(times: seq<int>, slot: int, k: int, from: int, to: int)
    requires slot > 0 && Positive(times) && from % slot == 0 && from <= to && InSlot(times, slot, k, from, to) > 0
    ensures from <= k * slot < to
  {
    SlotWhole(times, slot, k, from, to, from, to);
  }

  lemma FoldSlot(counts: seq<nat>, total: nat, starts: seq<int>, to: int, slot: int, times: seq<int>, done: set<int>, k: int, n: nat, i: int)
    requires starts != [] && Window(starts, starts[0], to, slot) && Positive(times)
    requires Partly(counts, total, starts, to, slot, times, done) && k !in done
    requires n > 0 && n == InSlot(times, slot, k, starts[0], to)
    requires -1 <= i < |starts| && (i >= 0 ==> starts[i] <= k * slot) && forall j :: i < j < |starts| ==> starts[j] > k * slot
    ensures 0 <= i && Partly(counts[i := counts[i] + n], total + n, starts, to, slot, times, done + {k})
  {
    hide InSlot, Folded, Positive;
    var from := starts[0];
    SlotStartsInside(times, slot, k, from, to);
    assert 0 <= i;
    FoldOneMore(times, slot, done, k, from, to);
    forall j | 0 <= j < |starts|
      ensures Folded(times, slot, done + {k}, starts[j], End(starts, to, j))
              == Folded(times, slot, done, starts[j], End(starts, to, j)) + if j == i then n else 0
    {
      FoldBucket(starts, to, slot, times, done, k, n, i, j);
    }
  }

  /** A slot's rows go to the one bucket that holds its start. */
  lemma FoldBucket(starts: seq<int>, to: int, slot: int, times: seq<int>, done: set<int>, k: int, n: nat, i: int, j: int)
    requires starts != [] && Window(starts, starts[0], to, slot) && Positive(times) && k !in done
    requires starts[0] <= k * slot < to && n == InSlot(times, slot, k, starts[0], to)
    requires 0 <= i < |starts| && starts[i] <= k * slot && forall j :: i < j < |starts| ==> starts[j] > k * slot
    requires 0 <= j < |starts|
    ensures Folded(times, slot, done + {k}, starts[j], End(starts, to, j))
            == Folded(times, slot, done, starts[j], End(starts, to, j)) + if j == i then n else 0
  {
    hide InSlot, Folded, Positive;
    BucketsAligned(starts, to, slot, j);
    SlotWhole(times, slot, k, starts[0], to, starts[j], End(starts, to, j));
    FoldOneMore(times, slot, done, k, starts[j], End(starts, to, j));
    OnlyBucket(starts, to, slot, k * slot, i, j);
  }

  lemma OnlyBucket(starts: seq<int>, to: int, slot: int, at: int, i: int, j: int)
    requires starts != [] && Window(starts, starts[0], to, slot) && 0 <= i < |starts| && 0 <= j < |starts|
    requires starts[i] <= at < to && forall m :: i < m < |starts| ==> starts[m] > at
    ensures starts[j] <= at < End(starts, to, j) <==> j == i
  {
    if j < i { assert End(starts, to, j) <= starts[i]; }
  }

  lemma FoldStart(starts: seq<int>, to: int, slot: int, times: seq<int>, counts: seq<nat>)
    requires starts != [] && slot > 0 && |counts| == |starts| && forall i :: 0 <= i < |counts| ==> counts[i] == 0
    ensures Partly(counts, 0, starts, to, slot, times, {})
  {
    FoldNone(times, slot, starts[0], to);
    forall i | 0 <= i < |starts| ensures Folded(times, slot, {}, starts[i], End(starts, to, i)) == 0 {
      FoldNone(times, slot, starts[i], End(starts, to, i));
    }
  }

  lemma FoldEnd(counts: seq<nat>, total: nat, starts: seq<int>, to: int, slot: int, times: seq<int>, slots: map<int, nat>)
    requires starts != [] && Window(starts, starts[0], to, slot) && IsSlots(slots, times, starts[0], to, slot)
    requires Partly(counts, total, starts, to, slot, times, slots.Keys)
    ensures Exact(counts, total, starts, to, times)
  {
    FoldAll(times, slot, slots.Keys, starts[0], to);
    forall i | 0 <= i < |starts| ensures counts[i] == Count(times, starts[i], End(starts, to, i)) {
      BucketsAligned(starts, to, slot, i);
      forall k | k !in slots.Keys ensures InSlot(times, slot, k, starts[i], End(starts, to, i)) == 0 {
        SlotWithin(times, slot, k, starts[0], starts[i], End(starts, to, i), to);
      }
      FoldAll(times, slot, slots.Keys, starts[i], End(starts, to, i));
    }
  }

  lemma WindowFacts(starts: seq<int>, to: int, slot: int)
    requires starts != [] && Window(starts, starts[0], to, slot)
    ensures slot > 0 && Increasing(starts)
  {}

  lemma SlotFacts(slots: map<int, nat>, times: seq<int>, from: int, to: int, slot: int)
    requires slot > 0 && IsSlots(slots, times, from, to, slot)
    ensures forall k :: k in slots ==> slots[k] == InSlot(times, slot, k, from, to) && slots[k] > 0
  {}

  /** The series with one more slot. */
  method AddSlot(counts: seq<nat>, total: nat, starts: seq<int>, to: int, slot: int, ghost times: seq<int>, ghost done: set<int>, k: int, n: nat)
    returns (counts': seq<nat>, total': nat)
    requires starts != [] && Window(starts, starts[0], to, slot) && Positive(times)
    requires Partly(counts, total, starts, to, slot, times, done) && k !in done
    requires n > 0 && n == InSlot(times, slot, k, starts[0], to)
    ensures Partly(counts', total', starts, to, slot, times, done + {k})
  {
    var i := BucketAt(starts, k * slot);
    FoldSlot(counts, total, starts, to, slot, times, done, k, n, i);
    hide Partly, Window;
    counts', total' := counts, total;
    if i >= 0 {
      counts' := counts[i := counts[i] + n];
      total' := total + n;
    }
  }

  /** The folding loop of evaluateAnalyze: every matching row of the window is
      counted once, in the bucket containing its time, empty buckets included. */
  method Fold(starts: seq<int>, to: int, slot: int, ghost times: seq<int>, slots: map<int, nat>) returns (counts: seq<nat>, total: nat)
    requires starts != [] && Window(starts, starts[0], to, slot) && Positive(times)
    requires IsSlots(slots, times, starts[0], to, slot)
    ensures Exact(counts, total, starts, to, times)
  {
    WindowFacts(starts, to, slot);
    SlotFacts(slots, times, starts[0], to, slot);
    hide Partly, Exact, Window, IsSlots, Increasing, InSlot, Positive;
    counts := seq(|starts|, _ => 0);
    total := 0;
    var left := slots.Keys;
    FoldStart(starts, to, slot, times, counts);
    ghost var done: set<int> := {};
    while left != {}
      invariant left !! done && left + done == slots.Keys
      invariant Partly(counts, total, starts, to, slot, times, done)
      decreases left
    {
      ghost var some := Member(left);
      var k :| k in left;
      counts, total := AddSlot(counts, total, starts, to, slot, times, done, k, slots[k]);
      left := left - {k};
      done := done + {k};
    }
    assert done == slots.Keys;
    FoldEnd(counts, total, starts, to, slot, times, slots);
  }

  /** The buckets add up to the total: nothing is lost or counted twice. */
  lemma {:induction false} SeriesSums(starts: seq<int>, to: int, slot: int, times: seq<int>, i: nat)
    requires starts != [] && Window(starts, starts[0], to, slot) && i <= |starts|
    ensures BucketSum(starts, to, times, i) == Count(times, starts[0], if i == 0 then starts[0] else End(starts, to, i - 1))
    decreases i
  {
    if i == 0 {
      CountNothing(times, starts[0], starts[0]);
    } else {
      SeriesSums(starts, to, slot, times, i - 1);
      BucketsAligned(starts, to, slot, i - 1);
      CountSplits(times, starts[0], starts[i - 1], End(starts, to, i - 1));
    }
  }

  function BucketSum(starts: seq<int>, to: int, times: seq<int>, i: nat): nat
    requires i <= |starts|
  {
    if i == 0 then 0 else BucketSum(starts, to, times, i - 1) + Count(times, starts[i - 1], End(starts, to, i - 1))
  }

  // ---- Rolling windows ----

  const MINUTE := 60_000
  const FINE_SLOT := 5 * MINUTE
  const COARSE_SLOT := 15 * MINUTE
  const HOUR := 60 * MINUTE
  const FIVE_MINUTE_HOURS := 6
  const WINDOW_HOURS := 168

  function StepFor(hours: nat): int {
    if hours <= FIVE_MINUTE_HOURS then FINE_SLOT else HOUR
  }

  function SlotFor(hours: nat): int {
    if hours <= FIVE_MINUTE_HOURS then FINE_SLOT else COARSE_SLOT
  }

  /** The end of the bucket in progress; `hourStart` is when the local hour began. */
  function RollingEnd(now: int, hourStart: int, hours: nat): int {
    if hours <= FIVE_MINUTE_HOURS then now / FINE_SLOT * FINE_SLOT + FINE_SLOT else hourStart + HOUR
  }

  /** A window of the last hours: as many buckets as steps fit, and the counts exact.
      The last bucket holds the present exactly when the local hour's start, as the
      zone rules give it, is the start of the hour in progress: in the hour a clock
      change repeats it may be that of the other occurrence. */
  method EvaluateHours(times: seq<int>, now: int, hourStart: int, hours: nat) returns (starts: seq<int>, counts: seq<nat>, total: nat)
    requires Positive(times) && 1 <= hours <= WINDOW_HOURS
    requires hourStart % COARSE_SLOT == 0
    ensures var to := RollingEnd(now, hourStart, hours);
            && |starts| * StepFor(hours) == hours * HOUR
            && (forall i :: 0 <= i < |starts| ==> starts[i] == to - hours * HOUR + i * StepFor(hours))
            && (starts[|starts| - 1] <= now < to <==> hours <= FIVE_MINUTE_HOURS || hourStart <= now < hourStart + HOUR)
            && Exact(counts, total, starts, to, times)
    // up to six hours in steps of five minutes, beyond that in hours
    ensures var step, to := if hours <= 6 then 300_000 else 3_600_000,
                            if hours <= 6 then (now / 300_000 + 1) * 300_000 else hourStart + 3_600_000;
            && |starts| * step == hours * 3_600_000
            && (forall i :: 0 <= i < |starts| ==> starts[i] == to - hours * 3_600_000 + i * step)
            && |counts| == |starts| && (forall i :: 0 <= i < |starts| ==> counts[i] == Count(times, starts[i], starts[i] + step))
            && total == Count(times, to - hours * 3_600_000, to)
  {
    hide Count, StepFor, SlotFor, RollingEnd, Window, Steps, IsSlots, Exact, Positive;
    var step, slot := StepFor(hours), SlotFor(hours);
    var to := RollingEnd(now, hourStart, hours);
    var from := to - hours * HOUR;
    RollingAligned(now, hourStart, hours);
    var next := (t: int) => t + step;
    RollingSteps(next, step, slot);
    var tooMany;
    starts, tooMany := BucketStarts(from, to, next, slot);
    WindowShape(starts, from, to, slot);
    StartsAt(starts, from, step);
    FewEnough(|starts|, hours, step);
    RollingSize(starts, from, hours, step);
    var slots := SlotCounts(times, starts[0], to, slot);
    counts, total := Fold(starts, to, slot, times, slots);
    InMilliseconds(times, now, hourStart, hours, starts, counts, total);
  }

  lemma InMilliseconds(times: seq<int>, now: int, hourStart: int, hours: nat, starts: seq<int>, counts: seq<nat>, total: nat)
    requires var to := RollingEnd(now, hourStart, hours);
             && |starts| * StepFor(hours) == hours * HOUR && starts != []
             && (forall i :: 0 <= i < |starts| ==> starts[i] == to - hours * HOUR + i * StepFor(hours))
             && Exact(counts, total, starts, to, times)
    ensures var step, to := if hours <= 6 then 300_000 else 3_600_000,
                            if hours <= 6 then (now / 300_000 + 1) * 300_000 else hourStart + 3_600_000;
            && |starts| * step == hours * 3_600_000
            && (forall i :: 0 <= i < |starts| ==> starts[i] == to - hours * 3_600_000 + i * step)
            && |counts| == |starts| && (forall i :: 0 <= i < |starts| ==> counts[i] == Count(times, starts[i], starts[i] + step))
            && total == Count(times, to - hours * 3_600_000, to)
  {
    var to, step := RollingEnd(now, hourStart, hours), StepFor(hours);
    assert to == if hours <= 6 then (now / 300_000 + 1) * 300_000 else hourStart + 3_600_000;
    assert step == if hours <= 6 then 300_000 else 3_600_000;
    hide RollingEnd, StepFor, Count;
    forall i | 0 <= i < |starts| ensures End(starts, to, i) == starts[i] + step { EndOfStep(starts, to, hours * HOUR, step, i); }
  }

  lemma EndOfStep(starts: seq<int>, to: int, span: int, step: int, i: nat)
    requires i < |starts| && |starts| * step == span
    requires forall j :: 0 <= j < |starts| ==> starts[j] == to - span + j * step
    ensures End(starts, to, i) == starts[i] + step
  {
    if i + 1 < |starts| {
      assert (i + 1) * step == i * step + step;
    } else {
      assert (i + 1) * step == span;
      assert (i + 1) * step == i * step + step;
    }
  }

  lemma RollingAligned(now: int, hourStart: int, hours: nat)
    requires 1 <= hours <= WINDOW_HOURS && hourStart % COARSE_SLOT == 0
    ensures var to, step, slot := RollingEnd(now, hourStart, hours), StepFor(hours), SlotFor(hours);
            && step > 0 && slot > 0 && step % slot == 0 && hours * HOUR % step == 0
            && (to - hours * HOUR) % slot == 0
            && (to - step <= now < to <==> hours <= FIVE_MINUTE_HOURS || hourStart <= now < hourStart + HOUR)
            && hours * HOUR <= 72 * step + 168 * step
  {
    if hours <= FIVE_MINUTE_HOURS {
      FineAligned(now, hours);
    } else {
      CoarseAligned(hourStart, hours);
    }
  }

  lemma FineAligned(now: int, hours: nat)
    ensures var to := now / FINE_SLOT * FINE_SLOT + FINE_SLOT;
            && hours * HOUR % FINE_SLOT == 0 && (to - hours * HOUR) % FINE_SLOT == 0
            && to - FINE_SLOT <= now < to
  {
    var q := now / FINE_SLOT;
    Multiple(hours * HOUR, 12 * hours, FINE_SLOT);
    Multiple(q * FINE_SLOT + FINE_SLOT - hours * HOUR, q + 1 - 12 * hours, FINE_SLOT);
  }

  lemma CoarseAligned(hourStart: int, hours: nat)
    requires hourStart % COARSE_SLOT == 0
    ensures hours * HOUR % HOUR == 0 && HOUR % COARSE_SLOT == 0
    ensures (hourStart + HOUR - hours * HOUR) % COARSE_SLOT == 0
  {
    var k := hourStart / COARSE_SLOT;
    Multiple(hours * HOUR, hours, HOUR);
    Multiple(hourStart + HOUR - hours * HOUR, k + 4 - 4 * hours, COARSE_SLOT);
  }

  lemma Multiple(x: int, a: int, slot: int)
    requires slot > 0 && x == a * slot
    ensures x % slot == 0
  {
    MultipleOf(a, slot);
  }

  lemma RollingSteps(next: int -> int, step: int, slot: int)
    requires slot > 0 && step > 0 && step % slot == 0 && forall t :: next(t) == t + step
    ensures Steps(next, slot)
  {
    forall t | t % slot == 0 ensures next(t) > t && next(t) % slot == 0 {
      var a, b := t / slot, step / slot;
      assert next(t) == (a + b) * slot;
      MultipleOf(a + b, slot);
    }
  }

  lemma MultipleOf(a: int, slot: int)
    requires slot > 0
    ensures a * slot % slot == 0
  {
    var q, r := a * slot / slot, a * slot % slot;
    assert a * slot == q * slot + r;
    if q < a { Scaled(q, a, slot); }
    if a < q { Scaled(a, q, slot); }
  }

  lemma WindowShape(starts: seq<int>, from: int, to: int, slot: int)
    requires Window(starts, from, to, slot)
    ensures starts != [] && starts[0] == from && starts[|starts| - 1] < to
  {}

  lemma {:induction false} StartAt(starts: seq<int>, from: int, step: int, i: nat)
    requires i < |starts| && starts[0] == from && forall j :: 0 < j < |starts| ==> starts[j] == starts[j - 1] + step
    ensures starts[i] == from + i * step
    decreases i
  {
    if i > 0 { StartAt(starts, from, step, i - 1); }
  }

  lemma StartsAt(starts: seq<int>, from: int, step: int)
    requires starts != [] && starts[0] == from && forall j :: 0 < j < |starts| ==> starts[j] == starts[j - 1] + step
    ensures forall i :: 0 <= i < |starts| ==> starts[i] == from + i * step
  {
    forall i | 0 <= i < |starts| ensures starts[i] == from + i * step { StartAt(starts, from, step, i); }
  }

  lemma FewEnough(n: nat, hours: nat, step: int)
    requires step > 0 && (n - 1) * step < hours * HOUR <= 240 * step
    ensures n <= 240
  {
    if 240 < n - 1 { Scaled(240, n - 1, step); }
  }

  /** As many steps as fit the window. */
  lemma RollingSize(starts: seq<int>, from: int, hours: nat, step: int)
    requires starts != [] && step > 0 && hours * HOUR % step == 0
    requires starts[|starts| - 1] == from + (|starts| - 1) * step
    requires starts[|starts| - 1] < from + hours * HOUR <= starts[|starts| - 1] + step
    ensures |starts| * step == hours * HOUR && starts[|starts| - 1] == from + hours * HOUR - step
  {
    var n, q := |starts|, hours * HOUR / step;
    assert (n - 1) * step + step == n * step;
    assert q * step == hours * HOUR;
    if q < n { Scaled(q, n, step); }
    if n < q { Scaled(n, q, step); }
  }
}
