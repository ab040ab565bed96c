/** Event batches on the server: the statements that store them, and the replay
    pages that read them back. */
module Recording {
  import opened Rows
  import opened Tracker

  const MAX_SEQ := 1_000_000

  datatype ChunkKey = ChunkKey(session: string, seqNo: int)

  type Chunks = map<ChunkKey, seq<Event>>

  function KeyOfBatch(b: Batch): ChunkKey {
    ChunkKey(b.session, b.number)
  }

  /** Ingest refuses a number outside its range; a stored one is overwritten. */
  function Deliver(chunks: Chunks, b: Batch): Chunks {
    if b.number > MAX_SEQ then chunks else chunks[KeyOfBatch(b) := b.events]
  }

  function DeliverAll(chunks: Chunks, arrivals: seq<Batch>): Chunks
    decreases |arrivals|
  {
    if arrivals == [] then chunks
    else Deliver(DeliverAll(chunks, arrivals[..|arrivals| - 1]), arrivals[|arrivals| - 1])
  }

  function SeqsOf(chunks: Chunks, session: string): set<int> {
    set k | k in chunks.Keys && k.session == session :: k.seqNo
  }

  /** The chunks with these numbers, one after another. */
  function Played(chunks: Chunks, session: string, numbers: seq<int>): (events: seq<Event>)
    requires forall n :: n in numbers ==> ChunkKey(session, n) in chunks
    decreases |numbers|
  {
    if numbers == [] then []
    else Played(chunks, session, numbers[..|numbers| - 1]) + chunks[ChunkKey(session, numbers[|numbers| - 1])]
  }

  /** The whole recording of a session as stored. */
  function Recorded(chunks: Chunks, session: string): seq<Event> {
    Played(chunks, session, Sorted(SeqsOf(chunks, session)))
  }

  // ---- Storing ----

  /** Deleting a session deletes its chunks. */
  function Erased(chunks: Chunks, session: string): Chunks {
    map k | k in chunks && k.session != session :: chunks[k]
  }

  ghost predicate CountsOk(chunks: Chunks, eventCount: map<string, nat>, open: multiset<string>) {
    forall s :: s in eventCount && s !in open ==> eventCount[s] == |Recorded(chunks, s)|
  }

  /** One method a statement; saves and deletions may interleave at will. */
  class Ingest {
    var chunks: Chunks
    var eventCount: map<string, nat>      // a row for each session there is
    ghost var open: multiset<string>      // saves between their chunk and their count

    /** event_count is the number of stored events of every session no save is in
        the middle of, and chunks belong to sessions there are. */
    ghost predicate Valid()
      reads this
    {
      && (forall k :: k in chunks ==> 0 <= k.seqNo <= MAX_SEQ && k.session in eventCount)
      && CountsOk(chunks, eventCount, open)
    }

    constructor ()
      ensures Valid() && chunks == map[] && eventCount == map[] && open == multiset{}
    {
      chunks, eventCount, open := map[], map[], multiset{};
    }

    /** EnsureSessionForSite, for a session of this site. */
    method EnsureSession(session: string)
      requires Valid()
      modifies this`eventCount
      ensures Valid() && session in eventCount
      ensures eventCount == if session in old(eventCount) then old(eventCount) else old(eventCount)[session := 0]
    {
      if session !in eventCount {
        NothingRecorded(chunks, session);
        eventCount := eventCount[session := 0];
      }
    }

    /** The chunk's upsert; without its session the foreign key refuses it. */
    method UpsertChunk(b: Batch) returns (ok: bool)
      requires Valid() && b.number <= MAX_SEQ
      modifies this`chunks, this`open
      ensures Valid() && ok == (b.session in eventCount)
      ensures chunks == if ok then Deliver(old(chunks), b) else old(chunks)
      ensures ok ==> chunks == old(chunks)[ChunkKey(b.session, b.number) := b.events]
      ensures open == if ok then old(open) + multiset{b.session} else old(open)
    {
      if b.session !in eventCount {
        return false;
      }
      hide CountsOk;
      UpsertCounts(chunks, eventCount, open, b);
      chunks := chunks[KeyOfBatch(b) := b.events];
      open := open + multiset{b.session};
      return true;
    }

    /** The update of event_count; a session deleted meanwhile has no row to update. */
    method Recount(session: string)
      requires Valid() && session in open
      modifies this`eventCount, this`open
      ensures Valid() && open == old(open) - multiset{session}
      ensures eventCount.Keys == old(eventCount).Keys
      ensures session in eventCount ==> eventCount[session] == |Recorded(chunks, session)|
      ensures forall s :: s in eventCount && s != session ==> eventCount[s] == old(eventCount)[s]
    {
      hide Recorded, Played, SeqsOf;
      if session in eventCount {
        var total := CountEvents(session);
        eventCount := eventCount[session := total];
      }
      open := open - multiset{session};
    }

    method DeleteSession(session: string)
      requires Valid()
      modifies this`chunks, this`eventCount
      ensures Valid() && chunks == Erased(old(chunks), session) && eventCount == old(eventCount) - {session}
    {
      hide Recorded, Played, SeqsOf;
      forall s | s != session ensures Recorded(Erased(chunks, session), s) == Recorded(chunks, s) {
        OthersStay(chunks, session, s);
      }
      chunks := Erased(chunks, session);
      eventCount := eventCount - {session};
    }

    /** SaveEvents behind the range check of the ingest handler, when nothing comes
        between its statements. */
    method SaveEvents(b: Batch) returns (ok: bool)
      requires Valid()
      modifies this
      ensures Valid() && ok == (b.number <= 1_000_000) && open == old(open)
      ensures chunks == Deliver(old(chunks), b)
      ensures forall s :: s in old(eventCount) && s != b.session ==> s in eventCount && eventCount[s] == old(eventCount)[s]
      ensures ok ==> eventCount.Keys == old(eventCount).Keys + {b.session} && eventCount[b.session] == |Recorded(chunks, b.session)|
    {
      hide Recorded, CountsOk;
      if b.number > MAX_SEQ {
        return false;
      }
      EnsureSession(b.session);
      var stored := UpsertChunk(b);
      Recount(b.session);
      return true;
    }

    /** SELECT SUM(events) over the session's chunks. */
    method CountEvents(session: string) returns (total: nat)
      ensures total == |Recorded(chunks, session)|
    {
      hide Played, Readable, Sorted, SeqsOf;
      var numbers := Sorted(SeqsOf(chunks, session));
      AllReadable(chunks, session);
      NothingPlayed(chunks, session);
      assert numbers[..0] == [];
      total := 0;
      var i := 0;
      while i < |numbers|
        invariant 0 <= i <= |numbers|
        invariant Readable(chunks, session, numbers[..i]) && total == |Played(chunks, session, numbers[..i])|
      {
        PlayedMore(chunks, session, numbers, i);
        total := total + |chunks[ChunkKey(session, numbers[i])]|;
        i := i + 1;
      }
      assert numbers[..i] == numbers;
    }
  }

  lemma UpsertCounts(chunks: Chunks, eventCount: map<string, nat>, open: multiset<string>, b: Batch)
    requires CountsOk(chunks, eventCount, open)
    ensures CountsOk(chunks[KeyOfBatch(b) := b.events], eventCount, open + multiset{b.session})
  {
    hide Recorded;
    forall s | s != b.session ensures Recorded(chunks[KeyOfBatch(b) := b.events], s) == Recorded(chunks, s) {
      OthersUntouched(chunks, b, s);
    }
  }

  lemma NothingPlayed(chunks: Chunks, session: string)
    ensures Played(chunks, session, []) == []
  {}

  lemma AllReadable(chunks: Chunks, session: string)
    ensures Readable(chunks, session, Sorted(SeqsOf(chunks, session)))
    ensures forall n: nat :: n <= |Sorted(SeqsOf(chunks, session))| ==> Readable(chunks, session, Sorted(SeqsOf(chunks, session))[..n])
  {
    var numbers := Sorted(SeqsOf(chunks, session));
    forall n: nat, x | n <= |numbers| && x in numbers[..n] ensures x in numbers {}
  }

  lemma NothingRecorded(chunks: Chunks, session: string)
    requires forall k :: k in chunks ==> k.session != session
    ensures Recorded(chunks, session) == []
  {
    assert SeqsOf(chunks, session) == {};
  }

  lemma OthersStay(chunks: Chunks, gone: string, s: string)
    requires s != gone
    ensures Recorded(Erased(chunks, gone), s) == Recorded(chunks, s)
  {
    forall n ensures n in SeqsOf(Erased(chunks, gone), s) <==> n in SeqsOf(chunks, s) {
      if n in SeqsOf(chunks, s) { assert ChunkKey(s, n) in Erased(chunks, gone); }
    }
    assert SeqsOf(Erased(chunks, gone), s) == SeqsOf(chunks, s);
    SamePlayed(chunks, Erased(chunks, gone), s, Sorted(SeqsOf(chunks, s)));
  }

  lemma OthersUntouched(chunks: Chunks, b: Batch, s: string)
    requires s != b.session
    ensures Recorded(chunks[KeyOfBatch(b) := b.events], s) == Recorded(chunks, s)
  {
    var after := chunks[KeyOfBatch(b) := b.events];
    assert SeqsOf(after, s) == SeqsOf(chunks, s);
    SamePlayed(chunks, after, s, Sorted(SeqsOf(chunks, s)));
  }

  lemma {:induction false} SamePlayed(a: Chunks, b: Chunks, s: string, numbers: seq<int>)
    requires forall n :: n in numbers ==> ChunkKey(s, n) in a && ChunkKey(s, n) in b && a[ChunkKey(s, n)] == b[ChunkKey(s, n)]
    ensures Played(a, s, numbers) == Played(b, s, numbers)
    decreases |numbers|
  {
    if numbers != [] {
      var n := numbers[|numbers| - 1];
      assert n in numbers;
      SamePlayed(a, b, s, numbers[..|numbers| - 1]);
    }
  }

  // ---- Reading back ----

  datatype Page = Page(events: seq<Event>, next: int, more: bool)

  function After(chunks: Chunks, session: string, afterSeq: int): (numbers: seq<int>)
    ensures Increasing(numbers)
    ensures forall n :: n in numbers <==> n in SeqsOf(chunks, session) && n > afterSeq
  {
    Sorted(set n | n in SeqsOf(chunks, session) && n > afterSeq)
  }

  ghost predicate Readable(chunks: Chunks, session: string, numbers: seq<int>) {
    forall n :: n in numbers ==> ChunkKey(session, n) in chunks
  }

  /** The page holds the first n chunks of `rest`: whole chunks, no more than it
      takes to reach the limit, with the number to go on from. */
  ghost predicate PageOf(chunks: Chunks, session: string, afterSeq: int, limit: nat, page: Page, rest: seq<int>, n: nat)
    requires Readable(chunks, session, rest)
  {
    && n <= |rest|
    && page.events == Played(chunks, session, rest[..n])
    && page.next == (if n == 0 then afterSeq else rest[n - 1])
    && (page.more <==> n > 0 && |page.events| >= limit)
    && (!page.more ==> n == |rest|)
    && (n > 0 ==> |Played(chunks, session, rest[..n - 1])| < limit)
  }

  ghost predicate IsPage(chunks: Chunks, session: string, afterSeq: int, limit: nat, page: Page) {
    var rest := After(chunks, session, afterSeq);
    exists n: nat :: PageOf(chunks, session, afterSeq, limit, page, rest, n)
  }

  lemma PlayedMore(chunks: Chunks, session: string, rest: seq<int>, n: nat)
    requires n < |rest| && Readable(chunks, session, rest)
    ensures ChunkKey(session, rest[n]) in chunks && Readable(chunks, session, rest[..n]) && Readable(chunks, session, rest[..n + 1])
    ensures Played(chunks, session, rest[..n + 1]) == Played(chunks, session, rest[..n]) + chunks[ChunkKey(session, rest[n])]
  {
    assert rest[..n + 1][..n] == rest[..n];
    var x := rest[n];
    assert x in rest;
  }

  /** A page under construction: n chunks taken, the limit not reached before the last. */
  ghost predicate Taking(chunks: Chunks, session: string, afterSeq: int, limit: nat, events: seq<Event>, next: int, rest: seq<int>, n: nat) {
    && Readable(chunks, session, rest) && n <= |rest|
    && events == Played(chunks, session, rest[..n])
    && next == (if n == 0 then afterSeq else rest[n - 1])
    && (n > 0 ==> |Played(chunks, session, rest[..n - 1])| < limit)
  }

  lemma TakeNone(chunks: Chunks, session: string, afterSeq: int, limit: nat)
    ensures Taking(chunks, session, afterSeq, limit, [], afterSeq, After(chunks, session, afterSeq), 0)
  {}

  lemma TakeOne(chunks: Chunks, session: string, afterSeq: int, limit: nat, events: seq<Event>, next: int, rest: seq<int>, n: nat)
    requires Taking(chunks, session, afterSeq, limit, events, next, rest, n) && n < |rest| && |events| < limit
    ensures ChunkKey(session, rest[n]) in chunks
    ensures Taking(chunks, session, afterSeq, limit, events + chunks[ChunkKey(session, rest[n])], rest[n], rest, n + 1)
  {
    PlayedMore(chunks, session, rest, n);
    hide Played;
  }

  lemma Taken(chunks: Chunks, session: string, afterSeq: int, limit: nat, page: Page, n: nat)
    requires Taking(chunks, session, afterSeq, limit, page.events, page.next, After(chunks, session, afterSeq), n)
    requires page.more <==> n > 0 && |page.events| >= limit
    requires !page.more ==> n == |After(chunks, session, afterSeq)|
    ensures IsPage(chunks, session, afterSeq, limit, page)
  {
    hide Played, After;
    assert PageOf(chunks, session, afterSeq, limit, page, After(chunks, session, afterSeq), n);
  }

  /** handleSessionEvents. */
  method EventsPage(chunks: Chunks, session: string, afterSeq: int, limit: nat) returns (page: Page)
    requires limit > 0
    ensures IsPage(chunks, session, afterSeq, limit, page)
  {
    hide Taking, IsPage, SeqsOf, After, Sorted, Increasing;
    var numbers := Sorted(SeqsOf(chunks, session));
    ghost var rest := After(chunks, session, afterSeq);
    AfterIsSuffix(chunks, session, afterSeq);
    TakeNone(chunks, session, afterSeq, limit);
    ghost var skip, n := |numbers| - |rest|, 0;
    var events: seq<Event> := [];
    var next, more := afterSeq, false;
    var i := 0;
    while i < |numbers|
      invariant 0 <= i <= |numbers| && !more && |events| < limit
      invariant n == if i <= skip then 0 else i - skip
      invariant Taking(chunks, session, afterSeq, limit, events, next, rest, n)
    {
      var number := numbers[i];
      i := i + 1;
      if number <= afterSeq {
        continue;
      }
      TakeOne(chunks, session, afterSeq, limit, events, next, rest, n);
      events := events + chunks[ChunkKey(session, number)];
      next := number;
      n := n + 1;
      if |events| >= limit {
        more := true;
        break;
      }
    }
    page := Page(events, next, more);
    Taken(chunks, session, afterSeq, limit, page, n);
  }

  /** The numbers after `afterSeq` are the tail of the sorted list. */
  lemma AfterIsSuffix(chunks: Chunks, session: string, afterSeq: int)
    ensures var all, rest := Sorted(SeqsOf(chunks, session)), After(chunks, session, afterSeq);
            && |rest| <= |all|
            && rest == all[|all| - |rest|..]
            && forall i :: 0 <= i < |all| ==> (all[i] > afterSeq <==> i >= |all| - |rest|)
  {
    var all := Sorted(SeqsOf(chunks, session));
    var k := FirstAfter(all, afterSeq);
    SameSorted(After(chunks, session, afterSeq), all[k..]);
  }

  lemma FirstAfter(q: seq<int>, bound: int) returns (k: nat)
    requires Increasing(q)
    ensures k <= |q| && forall i :: 0 <= i < |q| ==> (q[i] > bound <==> i >= k)
  {
    k := 0;
    while k < |q| && q[k] <= bound
      invariant k <= |q| && forall i :: 0 <= i < k ==> q[i] <= bound
    {
      k := k + 1;
    }
  }

  /** The player: follow next until there is no more. */
  method Replay(chunks: Chunks, session: string, limit: nat) returns (events: seq<Event>)
    requires limit > 0 && forall k :: k in chunks ==> k.seqNo >= 0
    ensures events == Recorded(chunks, session)
  {
    events := [];
    var after := -1;
    ghost var n := 0;
    Beginning(chunks, session);
    hide Following, IsPage, Recorded;
    var more := true;
    while more
      invariant Following(chunks, session, after, events, n)
      invariant !more ==> n == |Sorted(SeqsOf(chunks, session))|
      decreases more, |Sorted(SeqsOf(chunks, session))| - n
    {
      var page := EventsPage(chunks, session, after, limit);
      n := FollowPage(chunks, session, after, events, n, limit, page);
      events := events + page.events;
      after, more := page.next, page.more;
    }
    Finished(chunks, session, after, events);
  }

  /** The player has the first n chunks and stands just behind them. */
  ghost predicate Following(chunks: Chunks, session: string, after: int, events: seq<Event>, n: nat) {
    var all := Sorted(SeqsOf(chunks, session));
    && n <= |all| && After(chunks, session, after) == all[n..]
    && Readable(chunks, session, all) && Readable(chunks, session, all[..n])
    && events == Played(chunks, session, all[..n])
  }

  lemma Beginning(chunks: Chunks, session: string)
    requires forall k :: k in chunks ==> k.seqNo >= 0
    ensures Following(chunks, session, -1, [], 0)
  {
    AfterIsSuffix(chunks, session, -1);
    var all := Sorted(SeqsOf(chunks, session));
    if all != [] {
      var x := all[0];
      assert x in all;
    }
  }

  lemma Finished(chunks: Chunks, session: string, after: int, events: seq<Event>)
    requires Following(chunks, session, after, events, |Sorted(SeqsOf(chunks, session))|)
    ensures events == Recorded(chunks, session)
  {
    var all := Sorted(SeqsOf(chunks, session));
    assert all[..|all|] == all;
  }

  lemma FollowPage(chunks: Chunks, session: string, after: int, events: seq<Event>, n: nat, limit: nat, page: Page) returns (n': nat)
    requires Following(chunks, session, after, events, n) && IsPage(chunks, session, after, limit, page)
    ensures Following(chunks, session, page.next, events + page.events, n')
    ensures page.more ==> n' > n
    ensures !page.more ==> n' == |Sorted(SeqsOf(chunks, session))|
  {
    hide Played, After, SeqsOf, Sorted, Readable, Increasing;
    var all := Sorted(SeqsOf(chunks, session));
    var rest := all[n..];
    assert Readable(chunks, session, rest) by { ReadableRest(chunks, session, all, n); }
    var m: nat :| PageOf(chunks, session, after, limit, page, rest, m);
    n' := n + m;
    PlayedOn(chunks, session, all, n, m);
    if m > 0 { AfterNumber(chunks, session, n'); }
  }

  lemma ReadableRest(chunks: Chunks, session: string, all: seq<int>, n: nat)
    requires Readable(chunks, session, all) && n <= |all|
    ensures Readable(chunks, session, all[n..])
  {
    forall x | x in all[n..] ensures x in all {}
  }

  lemma PlayedOn(chunks: Chunks, session: string, all: seq<int>, n: nat, m: nat)
    requires Readable(chunks, session, all) && n + m <= |all|
    ensures Readable(chunks, session, all[..n]) && Readable(chunks, session, all[n..][..m]) && Readable(chunks, session, all[..n + m])
    ensures Played(chunks, session, all[..n + m]) == Played(chunks, session, all[..n]) + Played(chunks, session, all[n..][..m])
  {
    forall x | x in all[..n + m] ensures x in all {}
    forall x | x in all[n..][..m] ensures x in all {}
    assert all[..n] + all[n..][..m] == all[..n + m];
    PlayedConcat(chunks, session, all[..n], all[n..][..m]);
  }

  lemma AfterNumber(chunks: Chunks, session: string, i: nat)
    requires 0 < i <= |Sorted(SeqsOf(chunks, session))|
    ensures var all := Sorted(SeqsOf(chunks, session)); After(chunks, session, all[i - 1]) == all[i..]
  {
    hide Increasing, SeqsOf, After, Sorted;
    var all := Sorted(SeqsOf(chunks, session));
    AfterIsSuffix(chunks, session, all[i - 1]);
    SuffixAfter(all, |After(chunks, session, all[i - 1])|, i);
  }

  lemma SuffixAfter(all: seq<int>, rest: nat, i: nat)
    requires Increasing(all) && 0 < i <= |all| && rest <= |all|
    requires forall j :: 0 <= j < |all| ==> (all[j] > all[i - 1] <==> j >= |all| - rest)
    ensures rest == |all| - i
  {
    if i < |all| { assert all[i] > all[i - 1]; }
    if rest > 0 { assert all[|all| - rest] > all[i - 1]; }
  }

  lemma PlayedOne(chunks: Chunks, session: string, p: seq<int>, x: int)
    requires (forall n :: n in p ==> ChunkKey(session, n) in chunks) && ChunkKey(session, x) in chunks
    ensures Played(chunks, session, p + [x]) == Played(chunks, session, p) + chunks[ChunkKey(session, x)]
  {
    assert (p + [x])[..|p|] == p;
  }

  lemma {:induction false} PlayedConcat(chunks: Chunks, session: string, p: seq<int>, q: seq<int>)
    requires forall n :: n in p ==> ChunkKey(session, n) in chunks
    requires forall n :: n in q ==> ChunkKey(session, n) in chunks
    ensures Played(chunks, session, p + q) == Played(chunks, session, p) + Played(chunks, session, q)
    decreases |q|
  {
    hide Played;
    NothingPlayed(chunks, session);
    if q == [] {
      assert p + q == p;
    } else {
      var x := q[|q| - 1];
      var front := q[..|q| - 1];
      assert q == front + [x] && p + q == p + front + [x];
      PlayedConcat(chunks, session, p, front);
      PlayedOne(chunks, session, front, x);
      PlayedOne(chunks, session, p + front, x);
    }
  }

  // ---- What is replayed is what was recorded ----

  /** The batches of a session that arrived, in the order they were recorded. */
  function Arrived(sent: seq<Batch>, arrivals: seq<Batch>, session: string): (kept: seq<Batch>)
    ensures forall b :: b in kept <==> b in sent && b in arrivals && b.session == session && b.number <= MAX_SEQ
    ensures Numbered(sent) ==> Numbered(kept)
    decreases |sent|
  {
    if sent == [] then []
    else
      var last := sent[|sent| - 1];
      var before := Arrived(sent[..|sent| - 1], arrivals, session);
      assert sent == sent[..|sent| - 1] + [last];
      if last in arrivals && last.session == session && last.number <= MAX_SEQ then before + [last] else before
  }

  function NumbersOf(batches: seq<Batch>): seq<int> {
    seq(|batches|, i requires 0 <= i < |batches| => batches[i].number)
  }

  /** Once every arrival is a batch with its own number, each is stored under it. */
  lemma {:induction false} StoredAsSent(sent: seq<Batch>, arrivals: seq<Batch>)
    requires Numbered(sent) && forall b :: b in arrivals ==> b in sent
    ensures var chunks := DeliverAll(map[], arrivals);
            forall b :: b in arrivals && b.number <= MAX_SEQ ==> KeyOfBatch(b) in chunks && chunks[KeyOfBatch(b)] == b.events
    decreases |arrivals|
  {
    if arrivals != [] {
      var before, last := arrivals[..|arrivals| - 1], arrivals[|arrivals| - 1];
      assert arrivals == before + [last];
      StoredAsSent(sent, before);
      assert last in arrivals;
      forall b | b in arrivals && KeyOfBatch(b) == KeyOfBatch(last) ensures b == last {
        OneBatchPerKey(sent, b, last);
      }
    }
  }

  /** Every stored chunk came from some arrival. */
  lemma {:induction false} ChunkCameFrom(arrivals: seq<Batch>, k: ChunkKey) returns (b: Batch)
    requires k in DeliverAll(map[], arrivals)
    ensures b in arrivals && b.number <= MAX_SEQ && KeyOfBatch(b) == k
    decreases |arrivals|
  {
    var before, last := arrivals[..|arrivals| - 1], arrivals[|arrivals| - 1];
    if last.number <= MAX_SEQ && KeyOfBatch(last) == k {
      b := last;
    } else {
      b := ChunkCameFrom(before, k);
    }
  }

  lemma OneBatchPerKey(sent: seq<Batch>, a: Batch, b: Batch)
    requires Numbered(sent) && a in sent && b in sent && KeyOfBatch(a) == KeyOfBatch(b)
    ensures a == b
  {
    var i :| 0 <= i < |sent| && sent[i] == a;
    var j :| 0 <= j < |sent| && sent[j] == b;
  }

  lemma {:induction false} PlayedIsEvents(chunks: Chunks, session: string, batches: seq<Batch>)
    requires forall b :: b in batches ==> b.session == session && KeyOfBatch(b) in chunks && chunks[KeyOfBatch(b)] == b.events
    ensures forall n :: n in NumbersOf(batches) ==> ChunkKey(session, n) in chunks
    ensures Played(chunks, session, NumbersOf(batches)) == EventsIn(batches)
    decreases |batches|
  {
    if batches != [] {
      var before, last := batches[..|batches| - 1], batches[|batches| - 1];
      assert batches == before + [last];
      assert last in batches;
      PlayedIsEvents(chunks, session, before);
      assert NumbersOf(batches) == NumbersOf(before) + [last.number];
      assert NumbersOf(batches)[..|batches| - 1] == NumbersOf(before);
    }
  }

  lemma KeptNumbers(sent: seq<Batch>, arrivals: seq<Batch>, session: string, n: int)
    requires Numbered(sent) && forall b :: b in arrivals ==> b in sent
    ensures n in NumbersOf(Arrived(sent, arrivals, session)) <==> n in SeqsOf(DeliverAll(map[], arrivals), session)
  {
    var chunks, kept := DeliverAll(map[], arrivals), Arrived(sent, arrivals, session);
    StoredAsSent(sent, arrivals);
    hide DeliverAll, Arrived, Numbered;
    var numbers := NumbersOf(kept);
    if n in numbers {
      var i :| 0 <= i < |numbers| && numbers[i] == n;
      assert kept[i] in kept;
      assert KeyOfBatch(kept[i]) == ChunkKey(session, n);
    }
    if n in SeqsOf(chunks, session) {
      assert ChunkKey(session, n) in chunks;
      var b := ChunkCameFrom(arrivals, ChunkKey(session, n));
      assert b in kept;
      var i :| 0 <= i < |kept| && kept[i] == b;
      assert numbers[i] == n;
    }
  }

  /** Whatever the order and however often batches arrive, the stored recording
      is the delivered events, each once, in the order they were recorded. */
  lemma ReplayIsRecording(sent: seq<Batch>, arrivals: seq<Batch>, session: string)
    requires Numbered(sent) && forall b :: b in arrivals ==> b in sent
    ensures Recorded(DeliverAll(map[], arrivals), session) == EventsIn(Arrived(sent, arrivals, session))
  {
    var chunks, kept := DeliverAll(map[], arrivals), Arrived(sent, arrivals, session);
    StoredAsSent(sent, arrivals);
    hide DeliverAll, Arrived, SeqsOf;
    PlayedIsEvents(chunks, session, kept);
    forall n ensures n in NumbersOf(kept) <==> n in SeqsOf(chunks, session) {
      KeptNumbers(sent, arrivals, session, n);
    }
    SameSorted(NumbersOf(kept), Sorted(SeqsOf(chunks, session)));
  }

  /** Arrivals all stay readable exactly when no two with different events share
      a session and number. */
  lemma {:induction false} NothingOverwritten(arrivals: seq<Batch>)
    requires forall b :: b in arrivals ==> b.number <= MAX_SEQ
    ensures forall b :: b in arrivals ==> KeyOfBatch(b) in DeliverAll(map[], arrivals)
    ensures (forall b :: b in arrivals ==> DeliverAll(map[], arrivals)[KeyOfBatch(b)] == b.events) <==>
            (forall a, b :: a in arrivals && b in arrivals && KeyOfBatch(a) == KeyOfBatch(b) ==> a.events == b.events)
    decreases |arrivals|
  {
    if arrivals != [] {
      var before, last := arrivals[..|arrivals| - 1], arrivals[|arrivals| - 1];
      assert arrivals == before + [last];
      NothingOverwritten(before);
      var chunks := DeliverAll(map[], arrivals);
      assert last in arrivals;
      if forall b :: b in arrivals ==> chunks[KeyOfBatch(b)] == b.events {
        forall a, b | a in arrivals && b in arrivals && KeyOfBatch(a) == KeyOfBatch(b) ensures a.events == b.events {
          assert chunks[KeyOfBatch(a)] == a.events;
        }
      }
    }
  }

  /** The tracker's tab, the server and the player together: whatever arrives of
      what a tab has sent, in any order and any number of times, is played once
      and in the order it was recorded. */
  method ReplayOfTab(tab: Tab, arrivals: seq<Batch>, session: string, limit: nat) returns (events: seq<Event>)
    requires tab.Valid() && limit > 0 && forall b :: b in arrivals ==> b in tab.sent
    ensures events == EventsIn(Arrived(tab.sent, arrivals, session))
  {
    var chunks := DeliverAll(map[], arrivals);
    forall k | k in chunks ensures k.seqNo >= 0 { var b := ChunkCameFrom(arrivals, k); }
    events := Replay(chunks, session, limit);
    ReplayIsRecording(tab.sent, arrivals, session);
  }
}
