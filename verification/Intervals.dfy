/** Counting the instants of a list that fall into half-open intervals. */
module Intervals {
  function Count(times: seq<int>, from: int, to: int): (n: nat)
    decreases |times|
  {
    if times == [] then 0
    else Count(times[..|times| - 1], from, to) + if from <= times[|times| - 1] < to then 1 else 0
  }

  lemma {:induction false} CountSplits(times: seq<int>, a: int, b: int, c: int)
    requires a <= b <= c
    ensures Count(times, a, c) == Count(times, a, b) + Count(times, b, c)
    decreases |times|
  {
    if times != [] { CountSplits(times[..|times| - 1], a, b, c); }
  }

  lemma {:induction false} CountNothing(times: seq<int>, a: int, b: int)
    requires forall i :: 0 <= i < |times| ==> !(a <= times[i] < b)
    ensures Count(times, a, b) == 0
    decreases |times|
  {
    if times != [] { CountNothing(times[..|times| - 1], a, b); }
  }

  lemma CountWithin(times: seq<int>, a: int, b: int, c: int, d: int)
    requires a <= b <= c <= d
    ensures Count(times, b, c) <= Count(times, a, d)
  {
    CountSplits(times, a, b, d);
    CountSplits(times, b, c, d);
  }

  /** Each instant counts once, from `from` on and before `to`. */
  lemma {:induction false} CountIs(times: seq<int>, from: int, to: int)
    ensures Count(times, from, to) == |set i | 0 <= i < |times| && from <= times[i] < to|
    decreases |times|
  {
    var inside := set i | 0 <= i < |times| && from <= times[i] < to;
    if times != [] {
      var before, n := times[..|times| - 1], |times| - 1;
      CountIs(before, from, to);
      assert inside == (set i | 0 <= i < |before| && from <= before[i] < to) + if from <= times[n] < to then {n} else {};
    }
  }

  lemma CountOneMore(times: seq<int>, now: int, a: int, b: int)
    ensures Count(times + [now], a, b) == Count(times, a, b) + if a <= now < b then 1 else 0
  {
    assert (times + [now])[..|times|] == times;
  }
}
