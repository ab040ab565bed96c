/** The fixed-window request limiter, with its pruning, against a limiter that
    never prunes, and the bound both keep. */
module RateLimiter {
  import opened Intervals

  const PRUNE_ABOVE := 10_000

  datatype Entry = Entry(started: int, count: nat)

  type Entries = map<string, Entry>

  /** The entry a call at `now` counts against. */
  function Current(entries: Entries, key: string, now: int, window: int): Entry {
    if key !in entries || now - entries[key].started >= window then Entry(now, 0) else entries[key]
  }

  predicate Allows(entries: Entries, key: string, now: int, window: int, limit: nat) {
    Current(entries, key, now, window).count < limit
  }

  /** A call on a limiter that never prunes. */
  function Counted(entries: Entries, key: string, now: int, window: int, limit: nat): Entries {
    var e := Current(entries, key, now, window);
    entries[key := if e.count < limit then e.(count := e.count + 1) else e]
  }

  // ---- Allowed calls in an interval ----

  /** The calls in the half-open interval of one window length from `a`. */
  function InWindow(times: seq<int>, a: int, window: int): nat
    requires window > 0
  {
    Count(times, a, a + window)
  }

  /** The entry counts no fewer than the punctual calls since its window started, and
      no interval as long as the window holds more than twice the limit of them. A
      call is punctual when it did not read the clock before its window's start. */
  ghost predicate WindowOk(times: seq<int>, e: Entry, window: int, limit: nat)
    requires window > 0
  {
    && e.count <= limit
    && (forall i :: 0 <= i < |times| ==> times[i] < e.started + window)
    && Count(times, e.started, e.started + window) <= e.count
    && Count(times, e.started - window, e.started) <= limit
    && (forall a :: InWindow(times, a, window) <= 2 * limit)
  }

  /** Another punctual call in the entry's window. */
  lemma SameWindow(times: seq<int>, e: Entry, window: int, limit: nat, now: int)
    requires window > 0 && WindowOk(times, e, window, limit) && e.started <= now < e.started + window && e.count < limit
    ensures WindowOk(times + [now], e.(count := e.count + 1), window, limit)
  {
    var s := e.started;
    CountOneMore(times, now, s, s + window);
    CountOneMore(times, now, s - window, s);
    forall a ensures InWindow(times + [now], a, window) <= 2 * limit {
      OneMoreInWindow(times, e, window, limit, now, a);
    }
  }

  lemma OneMoreInWindow(times: seq<int>, e: Entry, window: int, limit: nat, now: int, a: int)
    requires window > 0 && WindowOk(times, e, window, limit) && e.started <= now < e.started + window && e.count < limit
    ensures InWindow(times + [now], a, window) <= 2 * limit
  {
    CountOneMore(times, now, a, a + window);
    assert InWindow(times, a, window) <= 2 * limit;
    if a <= now < a + window {
      var s := e.started;
      if a >= s {
        CountNothing(times, s + window, a + window);
        CountSplits(times, a, s + window, a + window);
        CountWithin(times, s, a, s + window, s + window);
      } else {
        CountSplits(times, a, s, a + window);
        CountWithin(times, s - window, a, s, s);
        CountWithin(times, s, s, a + window, s + window);
      }
    }
  }

  /** A window that has ended gives way to an empty one. */
  lemma NewWindow(times: seq<int>, e: Entry, window: int, limit: nat, now: int)
    requires window > 0 && WindowOk(times, e, window, limit) && now >= e.started + window
    ensures WindowOk(times, Entry(now, 0), window, limit)
  {
    CountNothing(times, now, now + window);
    AtMost(times, e, window, limit, now - window, now);
    assert forall a :: InWindow(times, a, window) <= 2 * limit;
  }

  /** Nothing from the window's start on counts more than its entry. */
  lemma AtMost(times: seq<int>, e: Entry, window: int, limit: nat, a: int, b: int)
    requires window > 0 && WindowOk(times, e, window, limit) && e.started <= a <= b
    ensures Count(times, a, b) <= limit
  {
    var end := if b < e.started + window then e.started + window else b;
    CountWithin(times, e.started, a, b, end);
    CountSplits(times, e.started, e.started + window, end);
    CountNothing(times, e.started + window, end);
  }

  lemma NothingYet(window: int, limit: nat, now: int)
    requires window > 0
    ensures WindowOk([], Entry(now, 0), window, limit)
  {
    assert forall a :: InWindow([], a, window) == 0;
  }

  /** An early call fills the entry and counts for no window. */
  lemma MoreCounted(times: seq<int>, e: Entry, window: int, limit: nat)
    requires window > 0 && WindowOk(times, e, window, limit) && e.count < limit
    ensures WindowOk(times, e.(count := e.count + 1), window, limit)
  {
    assert forall a :: InWindow(times, a, window) <= 2 * limit;
  }

  // ---- One key's history ----

  /** The calls allowed on one key in the order they were counted, and which of them
      were punctual and which early. */
  datatype History = History(all: seq<int>, punctual: seq<int>, early: seq<int>)

  const NoCalls := History([], [], [])

  function WithCall(h: History, now: int, early: bool): History {
    if early then History(h.all + [now], h.punctual, h.early + [now]) else History(h.all + [now], h.punctual + [now], h.early)
  }

  ghost predicate HistoryOk(h: History, e: Entry, window: int, limit: nat)
    requires window > 0
  {
    && WindowOk(h.punctual, e, window, limit)
    && e.count <= Count(h.punctual, e.started, e.started + window) + |h.early|
    && forall a, b :: Count(h.all, a, b) == Count(h.punctual, a, b) + Count(h.early, a, b)
  }

  lemma SplitMore(h: History, now: int, early: bool)
    requires forall a, b :: Count(h.all, a, b) == Count(h.punctual, a, b) + Count(h.early, a, b)
    ensures var h' := WithCall(h, now, early);
            forall a, b :: Count(h'.all, a, b) == Count(h'.punctual, a, b) + Count(h'.early, a, b)
  {
    var h' := WithCall(h, now, early);
    forall a, b ensures Count(h'.all, a, b) == Count(h'.punctual, a, b) + Count(h'.early, a, b) {
      CountOneMore(h.all, now, a, b);
      CountOneMore(h.punctual, now, a, b);
      CountOneMore(h.early, now, a, b);
    }
  }

  type Histories = map<string, History>

  function HistoryOf(histories: Histories, key: string): History {
    if key in histories then histories[key] else NoCalls
  }

  /** The histories after a call on a limiter that never prunes. */
  function Noted(histories: Histories, entries: Entries, key: string, now: int, window: int, limit: nat): Histories {
    var e := Current(entries, key, now, window);
    var h := HistoryOf(histories, key);
    histories[key := if e.count < limit then WithCall(h, now, now < e.started) else h]
  }

  ghost predicate AllOk(entries: Entries, histories: Histories, window: int, limit: nat)
    requires window > 0
  {
    && histories.Keys == entries.Keys
    && forall k :: k in histories ==> HistoryOk(histories[k], entries[k], window, limit)
  }

  lemma CurrentOk(entries: Entries, h: History, key: string, now: int, window: int, limit: nat)
    requires window > 0
    requires if key in entries then HistoryOk(h, entries[key], window, limit) else h == NoCalls
    ensures HistoryOk(h, Current(entries, key, now, window), window, limit)
    ensures now < Current(entries, key, now, window).started + window
  {
    if key !in entries {
      NothingYet(window, limit, now);
    } else if now - entries[key].started >= window {
      NewWindow(h.punctual, entries[key], window, limit, now);
    }
  }

  /** Any call, whatever it read, keeps the accounts. */
  lemma AllowKeeps(entries: Entries, histories: Histories, key: string, now: int, window: int, limit: nat)
    requires window > 0 && AllOk(entries, histories, window, limit)
    ensures AllOk(Counted(entries, key, now, window, limit), Noted(histories, entries, key, now, window, limit), window, limit)
  {
    hide WindowOk, Count;
    var h, e := HistoryOf(histories, key), Current(entries, key, now, window);
    CurrentOk(entries, h, key, now, window, limit);
    if e.count < limit {
      SplitMore(h, now, now < e.started);
      CountOneMore(h.punctual, now, e.started, e.started + window);
      if now < e.started { MoreCounted(h.punctual, e, window, limit); } else { SameWindow(h.punctual, e, window, limit, now); }
    }
  }

  // ---- Pruning ----

  /** The entries a pruning limiter still has are those of one that never prunes. */
  ghost predicate Agrees(entries: Entries, unpruned: Entries) {
    forall k :: k in entries ==> k in unpruned && entries[k] == unpruned[k]
  }

  /** The key's entry was not pruned, or not inside the window it still had at this
      call's reading. */
  predicate InTime(entries: Entries, unpruned: Entries, key: string, now: int, window: int) {
    key in unpruned && key !in entries ==> now - unpruned[key].started >= window
  }

  /** What pruning at a reading leaves. */
  function Pruned(entries: Entries, now: int, window: int): Entries {
    map k | k in entries && now - entries[k].started < window :: entries[k]
  }

  /** Every pruned entry's window had ended by the latest pruning's reading. */
  ghost predicate PrunedBy(entries: Entries, unpruned: Entries, window: int, at: int) {
    forall k :: k in unpruned && k !in entries ==> unpruned[k].started + window <= at
  }

  lemma CallAgrees(entries: Entries, unpruned: Entries, key: string, now: int, window: int, limit: nat)
    requires Agrees(entries, unpruned) && InTime(entries, unpruned, key, now, window)
    ensures Current(entries, key, now, window) == Current(unpruned, key, now, window)
    ensures Agrees(Counted(entries, key, now, window, limit), Counted(unpruned, key, now, window, limit))
  {}

  /** The exact condition: a call gets the answer a limiter that never prunes gives
      exactly when it is in time, or that answer is to allow it, or nothing is. */
  lemma AnswerAgreesIff(entries: Entries, unpruned: Entries, key: string, now: int, window: int, limit: nat)
    requires Agrees(entries, unpruned) && window > 0
    ensures Allows(entries, key, now, window, limit) == Allows(unpruned, key, now, window, limit) <==>
              InTime(entries, unpruned, key, now, window) || Allows(unpruned, key, now, window, limit) || limit == 0
  {}

  /** Pruning never changes the answer to the call that prunes. */
  lemma PruningNow(entries: Entries, key: string, now: int, window: int, limit: nat)
    ensures Current(Pruned(entries, now, window), key, now, window) == Current(entries, key, now, window)
  {}

  // ---- Staying in step ----

  ghost predicate InStepOk(entries: Entries, unpruned: Entries, histories: Histories, allowed: map<string, seq<int>>, window: int, prunedAt: int) {
    && Agrees(entries, unpruned) && PrunedBy(entries, unpruned, window, prunedAt)
    && allowed.Keys == histories.Keys
    && forall k :: k in allowed ==> allowed[k] == histories[k].all
  }

  /** With readings in order no window starts after the latest, and no call is early. */
  ghost predicate OrderedOk(unpruned: Entries, histories: Histories, latest: int) {
    && (forall k :: k in unpruned ==> unpruned[k].started <= latest)
    && (forall k :: k in histories ==> histories[k].early == [])
    && forall k, i :: k in histories && 0 <= i < |histories[k].all| ==> histories[k].all[i] <= latest
  }

  function Called(allowed: map<string, seq<int>>, key: string, now: int, ok: bool): map<string, seq<int>> {
    allowed[key := (if key in allowed then allowed[key] else []) + if ok then [now] else []]
  }

  function Later(a: int, b: int): int {
    if b > a then b else a
  }

  lemma StaysPruned(was: Entries, unpruned: Entries, key: string, now: int, window: int, limit: nat, prunedAt: int, prunes: bool)
    requires Agrees(was, unpruned) && PrunedBy(was, unpruned, window, prunedAt)
    requires InTime(was, unpruned, key, now, window)
    ensures var entries := if prunes then Pruned(was, now, window) else was;
            && Current(entries, key, now, window) == Current(unpruned, key, now, window)
            && Agrees(Counted(entries, key, now, window, limit), Counted(unpruned, key, now, window, limit))
            && PrunedBy(Counted(entries, key, now, window, limit), Counted(unpruned, key, now, window, limit), window, if prunes then Later(prunedAt, now) else prunedAt)
  {
    PruningNow(was, key, now, window, limit);
    CallAgrees(was, unpruned, key, now, window, limit);
    hide Current;
  }

  lemma StaysCalled(unpruned: Entries, histories: Histories, allowed: map<string, seq<int>>, key: string, now: int, window: int, limit: nat)
    requires allowed.Keys == histories.Keys && forall k :: k in allowed ==> allowed[k] == histories[k].all
    ensures var allowed' := Called(allowed, key, now, Allows(unpruned, key, now, window, limit));
            var histories' := Noted(histories, unpruned, key, now, window, limit);
            allowed'.Keys == histories'.Keys && forall k :: k in allowed' ==> allowed'[k] == histories'[k].all
  {
    hide Current;
    var times := if key in allowed then allowed[key] else [];
    assert times + [] == times;
  }

  lemma StaysInStep(was: Entries, unpruned: Entries, histories: Histories, allowed: map<string, seq<int>>,
                    key: string, now: int, window: int, limit: nat, prunedAt: int, prunes: bool)
    requires InStepOk(was, unpruned, histories, allowed, window, prunedAt) && InTime(was, unpruned, key, now, window)
    ensures var entries := if prunes then Pruned(was, now, window) else was;
            InStepOk(Counted(entries, key, now, window, limit), Counted(unpruned, key, now, window, limit),
                     Noted(histories, unpruned, key, now, window, limit),
                     Called(allowed, key, now, Allows(was, key, now, window, limit)), window, if prunes then Later(prunedAt, now) else prunedAt)
  {
    hide Agrees, PrunedBy, Current, Counted, Noted, Called, InTime, Pruned;
    StaysPruned(was, unpruned, key, now, window, limit, prunedAt, prunes);
    PruningNow(was, key, now, window, limit);
    StaysCalled(unpruned, histories, allowed, key, now, window, limit);
  }

  /** The accounts always hold; the two limiters are in step while calls were in time;
      and in order nothing is early. */
  ghost predicate LimiterOk(entries: Entries, unpruned: Entries, histories: Histories, allowed: map<string, seq<int>>,
                            window: int, limit: nat, latest: int, prunedAt: int, inStep: bool, ordered: bool)
    requires window > 0
  {
    && AllOk(unpruned, histories, window, limit)
    && (inStep ==> InStepOk(entries, unpruned, histories, allowed, window, prunedAt))
    && (ordered ==> inStep && OrderedOk(unpruned, histories, latest) && prunedAt <= latest)
  }

  lemma CallKeeps(entries: Entries, unpruned: Entries, histories: Histories, allowed: map<string, seq<int>>, key: string, now: int,
                  window: int, limit: nat, latest: int, prunedAt: int, inStep: bool, ordered: bool, prunes: bool)
    requires window > 0 && LimiterOk(entries, unpruned, histories, allowed, window, limit, latest, prunedAt, inStep, ordered)
    ensures LimiterOk(Counted(if prunes then Pruned(entries, now, window) else entries, key, now, window, limit), Counted(unpruned, key, now, window, limit),
                      Noted(histories, unpruned, key, now, window, limit), Called(allowed, key, now, Allows(entries, key, now, window, limit)),
                      window, limit, Later(latest, now), if prunes then Later(prunedAt, now) else prunedAt,
                      inStep && InTime(entries, unpruned, key, now, window), ordered && now >= latest)
    ensures inStep ==>
              (Allows(entries, key, now, window, limit) == Allows(unpruned, key, now, window, limit) <==>
                InTime(entries, unpruned, key, now, window) || Allows(unpruned, key, now, window, limit) || limit == 0)
  {
    hide AllOk, Noted, InStepOk, OrderedOk, Called, Pruned, InTime, Allows, Counted;
    AllowKeeps(unpruned, histories, key, now, window, limit);
    if inStep { AnswerOf(entries, unpruned, histories, allowed, key, now, window, limit, prunedAt); }
    if ordered && now >= latest { StaysOrdered(entries, unpruned, histories, allowed, key, now, window, limit, latest, prunedAt); }
    if inStep && InTime(entries, unpruned, key, now, window) {
      StaysInStep(entries, unpruned, histories, allowed, key, now, window, limit, prunedAt, prunes);
    }
  }

  /** In order, the call is in time, and afterwards still in order. */
  lemma StaysOrdered(entries: Entries, unpruned: Entries, histories: Histories, allowed: map<string, seq<int>>,
                     key: string, now: int, window: int, limit: nat, latest: int, prunedAt: int)
    requires InStepOk(entries, unpruned, histories, allowed, window, prunedAt)
    requires OrderedOk(unpruned, histories, latest) && prunedAt <= latest <= now
    ensures InTime(entries, unpruned, key, now, window)
    ensures OrderedOk(Counted(unpruned, key, now, window, limit), Noted(histories, unpruned, key, now, window, limit), now)
  {}

  // ---- Readings out of order ----

  /** A full entry pruned at one reading is empty to a call that took the lock later
      with an earlier reading, inside the window: it is allowed, though a limiter that
      never prunes refuses it. */
  lemma PrunedTooSoon(entries: Entries, key: string, window: int, limit: nat, pruning: int, read: int)
    requires key in entries && entries[key].count >= limit > 0
    requires read < entries[key].started + window <= pruning
    ensures Allows(Pruned(entries, pruning, window), key, read, window, limit) && !Allows(entries, key, read, window, limit)
  {}

  /** The entries after the first n calls on one key. */
  function EntriesAfter(calls: seq<int>, n: nat, window: int, limit: nat): Entries
    requires n <= |calls|
  {
    if n == 0 then map[] else Counted(EntriesAfter(calls, n - 1, window, limit), "key", calls[n - 1], window, limit)
  }

  /** Whether the limiter allows the n-th call. */
  predicate AllowsNth(calls: seq<int>, n: nat, window: int, limit: nat)
    requires n < |calls|
  {
    Allows(EntriesAfter(calls, n, window, limit), "key", calls[n], window, limit)
  }

  const LATE_CALLS := [0, 98, 98, 100, 100, 100, 200, 197, 197]

  /** Nine calls on one key with a window of 100 and a limit of 3, the last two counted
      in a window that began after they had read the clock: all are allowed, and seven
      of them lie in [98, 198). */
  lemma LateReadingsBreakBound()
    ensures forall n :: 0 <= n < |LATE_CALLS| ==> AllowsNth(LATE_CALLS, n, 100, 3)
    ensures Count(LATE_CALLS, 98, 198) == 7
  {
    assert EntriesAfter(LATE_CALLS, 1, 100, 3) == map["key" := Entry(0, 1)];
    assert EntriesAfter(LATE_CALLS, 2, 100, 3) == map["key" := Entry(0, 2)];
    assert EntriesAfter(LATE_CALLS, 3, 100, 3) == map["key" := Entry(0, 3)];
    assert EntriesAfter(LATE_CALLS, 4, 100, 3) == map["key" := Entry(100, 1)];
    assert EntriesAfter(LATE_CALLS, 5, 100, 3) == map["key" := Entry(100, 2)];
    assert EntriesAfter(LATE_CALLS, 6, 100, 3) == map["key" := Entry(100, 3)];
    assert EntriesAfter(LATE_CALLS, 7, 100, 3) == map["key" := Entry(200, 1)];
    assert EntriesAfter(LATE_CALLS, 8, 100, 3) == map["key" := Entry(200, 2)];
    LateCount();
  }

  lemma LateCount()
    ensures Count(LATE_CALLS, 98, 198) == 7
  {
    var c1, c2, c3: seq<int> := [0], [0, 98], [0, 98, 98];
    var c4, c5, c6 := c3 + [100], c3 + [100] + [100], c3 + [100] + [100] + [100];
    var c7, c8 := c6 + [200], c6 + [200] + [197];
    assert Count([], 98, 198) == 0;
    assert [] + [0] == c1 && c1 + [98] == c2 && c2 + [98] == c3 && c8 + [197] == LATE_CALLS;
    hide Count;
    CountOneMore([], 0, 98, 198);
    CountOneMore(c1, 98, 98, 198);
    CountOneMore(c2, 98, 98, 198);
    CountOneMore(c3, 100, 98, 198);
    CountOneMore(c4, 100, 98, 198);
    CountOneMore(c5, 100, 98, 198);
    CountOneMore(c6, 200, 98, 198);
    CountOneMore(c7, 197, 98, 198);
    CountOneMore(c8, 197, 98, 198);
  }

  // ---- The limiter ----

  /** Calls are counted in the order they take the lock; each has read the clock
      before, so readings may come in any order. */
  class Limiter {
    const limit: nat
    const window: int
    var entries: Entries
    // the limiter that never prunes with its histories, the calls allowed here, and
    // the latest readings
    ghost var unpruned: Entries
    ghost var histories: Histories
    ghost var allowed: map<string, seq<int>>
    ghost var latest: int
    ghost var prunedAt: int
    ghost var inStep: bool       // every call was in time
    ghost var ordered: bool      // every call read no earlier than those before it

    ghost predicate Valid()
      reads this
    {
      window > 0 && LimiterOk(entries, unpruned, histories, allowed, window, limit, latest, prunedAt, inStep, ordered)
    }

    constructor (limit: nat, window: int, now: int)
      requires window > 0
      ensures Valid() && this.limit == limit && this.window == window && unpruned == map[] && latest == now && inStep && ordered
    {
      this.limit, this.window, this.entries := limit, window, map[];
      unpruned, histories, allowed, latest, prunedAt, inStep, ordered := map[], map[], map[], now, now, true, true;
    }

    /** While every call was in time, an interval one window long holds at most twice
        the limit of allowed calls, and besides only those that read the clock before
        their own window began; with readings in order there are none of those. */
    lemma TwiceTheLimit(key: string, a: int)
      requires Valid() && inStep && key in allowed
      ensures key in histories && Count(allowed[key], a, a + window) <= 2 * limit + Count(histories[key].early, a, a + window)
      ensures ordered ==> Count(allowed[key], a, a + window) <= 2 * limit
    {
      assert HistoryOk(histories[key], unpruned[key], window, limit);
      assert InWindow(histories[key].punctual, a, window) <= 2 * limit;
      assert Count(histories[key].all, a, a + window) == Count(histories[key].punctual, a, a + window) + Count(histories[key].early, a, a + window);
    }

    /** A limiter that never prunes refuses a call only when its window already holds
        `limit` allowed calls, counting those that read the clock too early for it. */
    lemma RefusedOnlyWhenFull(key: string, now: int)
      requires Valid() && limit > 0 && !Allows(unpruned, key, now, window, limit)
      ensures key in unpruned && key in histories && unpruned[key].started > now - window
      ensures limit <= Count(histories[key].punctual, unpruned[key].started, unpruned[key].started + window) + |histories[key].early|
    {
      hide AllOk, InStepOk, OrderedOk, Allows;
      FullWindow(unpruned, histories, key, now, window, limit);
    }

    /** With readings in order: a call with fewer than `limit` allowed calls of its key
        in the window before it is allowed. */
    lemma AllowedBelowLimit(key: string, now: int)
      requires Valid() && ordered && now >= latest && limit > 0
      requires key in allowed ==> Count(allowed[key], now - window + 1, now + 1) < limit
      ensures Allows(entries, key, now, window, limit)
    {
      hide AllOk, InStepOk, OrderedOk, Allows, Count;
      InStepAgrees(entries, unpruned, histories, allowed, key, now, window, limit, latest, prunedAt);
      if !Allows(unpruned, key, now, window, limit) {
        FullWindow(unpruned, histories, key, now, window, limit);
        InOrder(unpruned, histories, allowed, key, now, window, limit, latest);
      }
    }

    /** What a caller can check: a reading no earlier than the latest pruning's is in
        time for every key. */
    lemma AfterPruningInTime(key: string, now: int)
      requires Valid() && inStep && now >= prunedAt
      ensures InTime(entries, unpruned, key, now, window)
    {}

    /** Drop what has expired by this call's reading. */
    method Prune(now: int)
      modifies this`entries
      ensures entries == Pruned(old(entries), now, window)
    {
      var keys := entries.Keys;
      while keys != {}
        invariant keys <= entries.Keys
        invariant forall k :: k in entries ==> k in old(entries) && entries[k] == old(entries)[k]
        invariant forall k :: k in old(entries) && (k in keys || now - old(entries)[k].started < window) ==> k in entries
        invariant forall k :: k in entries && k !in keys ==> now - entries[k].started < window
        decreases |keys|
      {
        var k :| k in keys;
        if now - entries[k].started >= window {
          entries := entries - {k};
        }
        keys := keys - {k};
      }
    }

    /** A call, whatever it read: its answer is that of a limiter that never prunes
        exactly under the condition of AnswerAgreesIff, and the two stay in step while
        calls are in time. */
    method Allow(key: string, now: int) returns (ok: bool)
      requires Valid()
      modifies this
      ensures Valid()
      ensures ok == Allows(old(entries), key, now, window, limit)
      ensures unpruned == Counted(old(unpruned), key, now, window, limit)
      ensures histories == Noted(old(histories), old(unpruned), key, now, window, limit)
      ensures allowed == Called(old(allowed), key, now, ok)
      ensures inStep == (old(inStep) && InTime(old(entries), old(unpruned), key, now, window))
      ensures old(inStep) ==>
                (ok == Allows(old(unpruned), key, now, window, limit) <==>
                  InTime(old(entries), old(unpruned), key, now, window) || Allows(old(unpruned), key, now, window, limit) || limit == 0)
      ensures ordered == (old(ordered) && now >= old(latest)) && latest == if now > old(latest) then now else old(latest)
    {
      hide LimiterOk, Noted, Called, Pruned, InTime, Allows, Counted;
      ghost var prunes := |entries| > PRUNE_ABOVE;
      CallKeeps(entries, unpruned, histories, allowed, key, now, window, limit, latest, prunedAt, inStep, ordered, prunes);
      inStep, ordered := inStep && InTime(entries, unpruned, key, now, window), ordered && now >= latest;
      histories := Noted(histories, unpruned, key, now, window, limit);
      unpruned := Counted(unpruned, key, now, window, limit);
      latest := Later(latest, now);
      prunedAt := if prunes then Later(prunedAt, now) else prunedAt;
      ok := Take(key, now);
      allowed := Called(allowed, key, now, ok);
    }

    /** The body of allow, under the lock. */
    method Take(key: string, now: int) returns (ok: bool)
      modifies this`entries
      ensures ok == Allows(old(entries), key, now, window, limit)
      ensures entries == Counted(if |old(entries)| > PRUNE_ABOVE then Pruned(old(entries), now, window) else old(entries), key, now, window, limit)
    {
      PruningNow(entries, key, now, window, limit);
      if |entries| > PRUNE_ABOVE {
        Prune(now);
      }
      hide Pruned;
      var entry := if key !in entries || now - entries[key].started >= window then Entry(now, 0) else entries[key];
      if entry.count >= limit {
        entries := entries[key := entry];
        return false;
      }
      entry := entry.(count := entry.count + 1);
      entries := entries[key := entry];
      return true;
    }
  }

  lemma SameKeys(unpruned: Entries, histories: Histories, window: int, limit: nat)
    requires window > 0 && AllOk(unpruned, histories, window, limit)
    ensures histories.Keys == unpruned.Keys
  {}

  lemma FullWindow(unpruned: Entries, histories: Histories, key: string, now: int, window: int, limit: nat)
    requires window > 0 && AllOk(unpruned, histories, window, limit) && limit > 0 && !Allows(unpruned, key, now, window, limit)
    ensures key in unpruned && key in histories && unpruned[key].started > now - window
    ensures limit <= Count(histories[key].punctual, unpruned[key].started, unpruned[key].started + window) + |histories[key].early|
  {
    hide WindowOk, Count;
    assert HistoryOk(histories[key], unpruned[key], window, limit);
  }

  /** In order, the pruning limiter answers as the other. */
  lemma InStepAgrees(entries: Entries, unpruned: Entries, histories: Histories, allowed: map<string, seq<int>>, key: string, now: int,
                     window: int, limit: nat, latest: int, prunedAt: int)
    requires window > 0 && InStepOk(entries, unpruned, histories, allowed, window, prunedAt)
    requires OrderedOk(unpruned, histories, latest) && prunedAt <= latest <= now
    ensures Allows(entries, key, now, window, limit) == Allows(unpruned, key, now, window, limit)
    ensures allowed.Keys == histories.Keys && forall k :: k in allowed ==> allowed[k] == histories[k].all
  {
    StaysOrdered(entries, unpruned, histories, allowed, key, now, window, limit, latest, prunedAt);
    AnswerAgreesIff(entries, unpruned, key, now, window, limit);
  }

  /** In order, a window's allowed calls lie between its start and now. */
  lemma InOrder(unpruned: Entries, histories: Histories, allowed: map<string, seq<int>>, key: string, now: int,
                window: int, limit: nat, latest: int)
    requires window > 0 && AllOk(unpruned, histories, window, limit) && OrderedOk(unpruned, histories, latest) && latest <= now
    requires key in unpruned && key in allowed && key in histories && allowed[key] == histories[key].all && unpruned[key].started > now - window
    requires limit <= Count(histories[key].punctual, unpruned[key].started, unpruned[key].started + window) + |histories[key].early|
    ensures limit <= Count(allowed[key], now - window + 1, now + 1)
  {
    hide WindowOk, Count;
    assert HistoryOk(histories[key], unpruned[key], window, limit);
    InWindowBefore(histories[key], unpruned[key].started, now, window);
  }

  lemma InWindowBefore(h: History, s: int, now: int, window: int)
    requires window > 0 && now - window < s <= now && h.early == [] && forall i :: 0 <= i < |h.all| ==> h.all[i] <= now
    requires forall a, b :: Count(h.all, a, b) == Count(h.punctual, a, b) + Count(h.early, a, b)
    ensures Count(h.punctual, s, s + window) <= Count(h.all, now - window + 1, now + 1)
  {
    CountNothing(h.early, s, s + window);
    assert Count(h.all, s, s + window) == Count(h.punctual, s, s + window) + Count(h.early, s, s + window);
    hide Count;
    CountNothing(h.all, now + 1, s + window);
    CountSplits(h.all, s, now + 1, s + window);
    CountWithin(h.all, now - window + 1, s, now + 1, now + 1);
  }

  lemma AnswerOf(entries: Entries, unpruned: Entries, histories: Histories, allowed: map<string, seq<int>>, key: string, now: int, window: int, limit: nat, prunedAt: int)
    requires InStepOk(entries, unpruned, histories, allowed, window, prunedAt) && window > 0
    ensures Allows(entries, key, now, window, limit) == Allows(unpruned, key, now, window, limit) <==>
              InTime(entries, unpruned, key, now, window) || Allows(unpruned, key, now, window, limit) || limit == 0
  {
    AnswerAgreesIff(entries, unpruned, key, now, window, limit);
  }
}
