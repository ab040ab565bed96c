/** The seek table of a recording, and the cache that serves it: over any run of
    arrivals, session deletions and lookups, when is what it serves current? */
module SeekTable {
  import opened Rows
  import opened Tracker
  import opened Recording

  // ---- One row ----

  /** What the seek table says of one chunk. */
  datatype ChunkInfo = ChunkInfo(seqNo: int, first: int, last: int, events: nat, snapshot: bool)

  const FULL_SNAPSHOT := 2

  /** The last time starts from zero, the first from the first event. */
  ghost predicate Describes(info: ChunkInfo, n: int, events: seq<Event>) {
    && info.seqNo == n && info.events == |events|
    && (info.snapshot <==> exists i :: 0 <= i < |events| && events[i].kind == 2)
    && (exists i :: 0 <= i < |events| && info.first == events[i].timestamp)
    && (forall i :: 0 <= i < |events| ==> info.first <= events[i].timestamp <= info.last)
    && (info.last == 0 || exists i :: 0 <= i < |events| && info.last == events[i].timestamp)
    && info.last >= 0
  }

  function Info(n: int, events: seq<Event>): ChunkInfo
    requires events != []
    decreases |events|
  {
    var last := events[|events| - 1];
    if |events| == 1 then
      ChunkInfo(n, last.timestamp, if last.timestamp > 0 then last.timestamp else 0, 1, last.kind == FULL_SNAPSHOT)
    else
      var before := Info(n, events[..|events| - 1]);
      ChunkInfo(n, if last.timestamp < before.first then last.timestamp else before.first,
                if last.timestamp > before.last then last.timestamp else before.last,
                before.events + 1, before.snapshot || last.kind == FULL_SNAPSHOT)
  }

  lemma DescriptionIsUnique(a: ChunkInfo, b: ChunkInfo, n: int, events: seq<Event>)
    requires Describes(a, n, events) && Describes(b, n, events)
    ensures a == b
  {}

  lemma {:induction false} InfoDescribes(n: int, events: seq<Event>)
    requires events != []
    ensures Describes(Info(n, events), n, events)
    decreases |events|
  {
    var before, last := events[..|events| - 1], events[|events| - 1];
    assert events == before + [last];
    if before == [] {
      assert events == [last];
      assert events[0] == last;
    } else {
      InfoDescribes(n, before);
      DescribesMore(Info(n, before), n, before, last);
    }
  }

  lemma DescribesMore(info: ChunkInfo, n: int, events: seq<Event>, last: Event)
    requires Describes(info, n, events)
    ensures Describes(ChunkInfo(n, if last.timestamp < info.first then last.timestamp else info.first,
                                if last.timestamp > info.last then last.timestamp else info.last,
                                info.events + 1, info.snapshot || last.kind == FULL_SNAPSHOT), n, events + [last])
  {
    var more := events + [last];
    assert more[|events|] == last;
    forall i | 0 <= i < |events| ensures more[i] == events[i] {}
    var i :| 0 <= i < |events| && info.first == events[i].timestamp;
    assert more[i].timestamp == info.first;
    if info.snapshot {
      var j :| 0 <= j < |events| && events[j].kind == FULL_SNAPSHOT;
      assert more[j].kind == FULL_SNAPSHOT;
    }
    if info.last != 0 {
      var j :| 0 <= j < |events| && info.last == events[j].timestamp;
      assert more[j].timestamp == info.last;
    }
  }

  /** The loop that builds one row. */
  method Describe(n: int, events: seq<Event>) returns (info: ChunkInfo)
    requires events != []
    ensures Describes(info, n, events) && info == Info(n, events)
  {
    info := ChunkInfo(n, 0, 0, |events|, false);
    var i := 0;
    while i < |events|
      invariant 0 <= i <= |events| && info.seqNo == n && info.events == |events| && info.last >= 0
      invariant info.snapshot <==> exists j :: 0 <= j < i && events[j].kind == FULL_SNAPSHOT
      invariant i > 0 ==> exists j :: 0 <= j < i && info.first == events[j].timestamp
      invariant forall j :: 0 <= j < i ==> info.first <= events[j].timestamp <= info.last
      invariant info.last == 0 || exists j :: 0 <= j < i && info.last == events[j].timestamp
    {
      var event := events[i];
      if event.kind == FULL_SNAPSHOT { info := info.(snapshot := true); }
      if i == 0 || event.timestamp < info.first { info := info.(first := event.timestamp); }
      if event.timestamp > info.last { info := info.(last := event.timestamp); }
      i := i + 1;
    }
    InfoDescribes(n, events);
    DescriptionIsUnique(info, Info(n, events), n, events);
  }

  // ---- The table ----

  /** The numbers whose chunks hold events. */
  function NonEmpty(chunks: Chunks, session: string, numbers: seq<int>): (kept: seq<int>)
    ensures forall n :: n in kept <==> n in numbers && ChunkKey(session, n) in chunks && chunks[ChunkKey(session, n)] != []
    decreases |numbers|
  {
    if numbers == [] then []
    else
      var n := numbers[|numbers| - 1];
      assert numbers == numbers[..|numbers| - 1] + [n];
      NonEmpty(chunks, session, numbers[..|numbers| - 1])
      + if ChunkKey(session, n) in chunks && chunks[ChunkKey(session, n)] != [] then [n] else []
  }

  lemma {:induction false} NonEmptyIncreases(chunks: Chunks, session: string, numbers: seq<int>)
    requires Increasing(numbers)
    ensures Increasing(NonEmpty(chunks, session, numbers))
    decreases |numbers|
  {
    if numbers != [] {
      var before := numbers[..|numbers| - 1];
      var kept := NonEmpty(chunks, session, before);
      NonEmptyIncreases(chunks, session, before);
      forall i | 0 <= i < |kept| ensures kept[i] < numbers[|numbers| - 1] {
        var n := kept[i];
        assert n in kept;
        assert n in before;
      }
    }
  }

  function Infos(chunks: Chunks, session: string, numbers: seq<int>): (table: seq<ChunkInfo>)
    requires forall n :: n in numbers ==> ChunkKey(session, n) in chunks && chunks[ChunkKey(session, n)] != []
    decreases |numbers|
  {
    if numbers == [] then []
    else
      var n := numbers[|numbers| - 1];
      assert numbers == numbers[..|numbers| - 1] + [n];
      Infos(chunks, session, numbers[..|numbers| - 1]) + [Info(n, chunks[ChunkKey(session, n)])]
  }

  /** The table of a session: its non-empty chunks in order. */
  function Table(chunks: Chunks, session: string): seq<ChunkInfo> {
    Infos(chunks, session, NonEmpty(chunks, session, Sorted(SeqsOf(chunks, session))))
  }

  /** SessionIndex. */
  method BuildTable(chunks: Chunks, session: string) returns (table: seq<ChunkInfo>)
    ensures table == Table(chunks, session)
  {
    var numbers := Sorted(SeqsOf(chunks, session));
    assert Readable(chunks, session, numbers);
    TableEmpty(chunks, session, numbers);
    hide Infos, NonEmpty, Sorted, SeqsOf, Readable;
    table := [];
    var i := 0;
    while i < |numbers|
      invariant 0 <= i <= |numbers|
      invariant table == Infos(chunks, session, NonEmpty(chunks, session, numbers[..i]))
    {
      TableGrows(chunks, session, numbers, i);
      var n := numbers[i];
      if chunks[ChunkKey(session, n)] != [] {
        var info := Describe(n, chunks[ChunkKey(session, n)]);
        table := table + [info];
      }
      i := i + 1;
    }
    assert numbers[..i] == numbers;
  }

  lemma TableEmpty(chunks: Chunks, session: string, numbers: seq<int>)
    ensures Infos(chunks, session, NonEmpty(chunks, session, numbers[..0])) == []
  {}

  lemma TableGrows(chunks: Chunks, session: string, numbers: seq<int>, i: nat)
    requires Readable(chunks, session, numbers) && i < |numbers|
    ensures ChunkKey(session, numbers[i]) in chunks
    ensures var events := chunks[ChunkKey(session, numbers[i])];
            Infos(chunks, session, NonEmpty(chunks, session, numbers[..i + 1]))
            == Infos(chunks, session, NonEmpty(chunks, session, numbers[..i])) + if events == [] then [] else [Info(numbers[i], events)]
  {
    var n := numbers[i];
    assert n in numbers;
    assert numbers[..i + 1][..i] == numbers[..i];
    var kept := NonEmpty(chunks, session, numbers[..i]);
    assert (kept + [n])[..|kept|] == kept;
    assert kept + [] == kept;
  }

  /** A session's row for a number, when there is one. */
  function RowAt(chunks: Chunks, session: string, n: int): Option<ChunkInfo> {
    var k := ChunkKey(session, n);
    if k in chunks && chunks[k] != [] then Some(Info(n, chunks[k])) else None
  }

  /** The same non-empty chunk numbers with the same descriptions. */
  ghost predicate SameRows(a: Chunks, b: Chunks, session: string) {
    forall n :: RowAt(a, session, n) == RowAt(b, session, n)
  }

  lemma {:induction false} InfosAt(chunks: Chunks, session: string, numbers: seq<int>)
    requires forall n :: n in numbers ==> ChunkKey(session, n) in chunks && chunks[ChunkKey(session, n)] != []
    ensures var table := Infos(chunks, session, numbers);
            |table| == |numbers| && forall i :: 0 <= i < |table| ==> table[i].seqNo == numbers[i] && Some(table[i]) == RowAt(chunks, session, numbers[i])
    decreases |numbers|
  {
    if numbers != [] {
      var before, n := numbers[..|numbers| - 1], numbers[|numbers| - 1];
      assert numbers == before + [n];
      assert n in numbers;
      InfosAt(chunks, session, before);
    }
  }

  /** The numbers that have rows, in order. */
  function RowNumbers(chunks: Chunks, session: string): seq<int> {
    NonEmpty(chunks, session, Sorted(SeqsOf(chunks, session)))
  }

  lemma RowNumbersAre(chunks: Chunks, session: string)
    ensures Increasing(RowNumbers(chunks, session))
    ensures forall n :: n in RowNumbers(chunks, session) <==> RowAt(chunks, session, n).Some?
  {
    NonEmptyIncreases(chunks, session, Sorted(SeqsOf(chunks, session)));
    forall n ensures n in RowNumbers(chunks, session) <==> RowAt(chunks, session, n).Some? {
      if RowAt(chunks, session, n).Some? { assert ChunkKey(session, n) in chunks.Keys; }
    }
  }

  lemma TableAt(chunks: Chunks, session: string)
    ensures var table, numbers := Table(chunks, session), RowNumbers(chunks, session);
            |table| == |numbers| && forall i :: 0 <= i < |table| ==> table[i].seqNo == numbers[i] && Some(table[i]) == RowAt(chunks, session, numbers[i])
  {
    hide Infos, NonEmpty, RowAt;
    InfosAt(chunks, session, RowNumbers(chunks, session));
  }

  lemma TablesThenRows(a: Chunks, b: Chunks, session: string)
    requires Table(a, session) == Table(b, session)
    ensures SameRows(a, b, session)
  {
    hide RowNumbers, Table, RowAt;
    var p, q := RowNumbers(a, session), RowNumbers(b, session);
    TableAt(a, session);
    TableAt(b, session);
    assert p == q;
    RowNumbersAre(a, session);
    RowNumbersAre(b, session);
    forall n ensures RowAt(a, session, n) == RowAt(b, session, n) {
      if n in p {
        var i :| 0 <= i < |p| && p[i] == n;
        assert Some(Table(a, session)[i]) == RowAt(a, session, p[i]);
      } else {
        assert n !in q;
      }
    }
  }

  lemma RowsThenTables(a: Chunks, b: Chunks, session: string)
    requires SameRows(a, b, session)
    ensures Table(a, session) == Table(b, session)
  {
    hide RowNumbers, Table, RowAt;
    var p, q := RowNumbers(a, session), RowNumbers(b, session);
    RowNumbersAre(a, session);
    RowNumbersAre(b, session);
    SameSorted(p, q);
    hide Increasing;
    TableAt(a, session);
    TableAt(b, session);
    forall i | 0 <= i < |p| ensures Table(a, session)[i] == Table(b, session)[i] {
      assert RowAt(a, session, p[i]) == RowAt(b, session, p[i]);
    }
  }

  /** Two tables are equal exactly when their sessions have the same rows. */
  lemma TablesEqual(a: Chunks, b: Chunks, session: string)
    ensures Table(a, session) == Table(b, session) <==> SameRows(a, b, session)
  {
    hide Table, SameRows;
    if Table(a, session) == Table(b, session) { TablesThenRows(a, b, session); }
    if SameRows(a, b, session) { RowsThenTables(a, b, session); }
  }

  /** Rewriting a chunk leaves the table right exactly when its row stays the same. */
  lemma RewrittenChunk(chunks: Chunks, k: ChunkKey, events: seq<Event>)
    requires k in chunks
    ensures |SeqsOf(chunks[k := events], k.session)| == |SeqsOf(chunks, k.session)|
    ensures Table(chunks[k := events], k.session) == Table(chunks, k.session) <==>
              RowAt(chunks[k := events], k.session, k.seqNo) == RowAt(chunks, k.session, k.seqNo)
  {
    hide Table, RowAt, SameRows, SeqsOf;
    var now := chunks[k := events];
    RewriteSeqs(chunks, k, events);
    TablesEqual(now, chunks, k.session);
    RewriteRows(chunks, k, events);
  }

  lemma RewriteSeqs(chunks: Chunks, k: ChunkKey, events: seq<Event>)
    requires k in chunks
    ensures SeqsOf(chunks[k := events], k.session) == SeqsOf(chunks, k.session)
  {
    assert chunks[k := events].Keys == chunks.Keys;
  }

  lemma RewriteRows(chunks: Chunks, k: ChunkKey, events: seq<Event>)
    ensures SameRows(chunks[k := events], chunks, k.session) <==>
              RowAt(chunks[k := events], k.session, k.seqNo) == RowAt(chunks, k.session, k.seqNo)
  {
    hide Info;
    forall n | n != k.seqNo ensures RowAt(chunks[k := events], k.session, n) == RowAt(chunks, k.session, n) {
      assert ChunkKey(k.session, n) != k;
    }
  }

  /** Chunks of this session that were there are there still, unchanged. */
  ghost predicate Kept(was: Chunks, now: Chunks, session: string) {
    forall k :: k in was && k.session == session ==> k in now && now[k] == was[k]
  }

  /** While chunks are only added and never rewritten, as many chunks means the
      same chunks. */
  lemma CountTellsStaleness(was: Chunks, now: Chunks, session: string)
    requires Kept(was, now, session) && |SeqsOf(was, session)| == |SeqsOf(now, session)|
    ensures SeqsOf(was, session) == SeqsOf(now, session)
    ensures Table(was, session) == Table(now, session)
  {
    var a, b := SeqsOf(was, session), SeqsOf(now, session);
    forall n | n in a ensures n in b { assert ChunkKey(session, n) in now; }
    assert b == a + (b - a);
    assert a == b;
    forall k: ChunkKey | k.session == session && k in now ensures k in was {
      assert k.seqNo in b;
      assert ChunkKey(session, k.seqNo) == k;
    }
    TablesEqual(was, now, session);
    hide Info, Table;
    forall n ensures RowAt(was, session, n) == RowAt(now, session, n) { assert ChunkKey(session, n) in was <==> ChunkKey(session, n) in now; }
  }

  // ---- The cache ----

  datatype Cached = Cached(table: seq<ChunkInfo>, chunks: nat)

  const CACHE_ENTRIES := 32

  type Entries = map<string, Cached>

  /** What the cache answers, when it does: an entry with as many chunks. */
  function Served(entries: Entries, chunks: Chunks, session: string): Option<seq<ChunkInfo>> {
    if session in entries && entries[session].chunks == |SeqsOf(chunks, session)| then Some(entries[session].table) else None
  }

  /** The cache is emptied rather than grown past its bound. */
  function Remember(entries: Entries, session: string, c: Cached): Entries {
    (if |entries| > CACHE_ENTRIES then map[] else entries)[session := c]
  }

  /** handleSessionIndex's cache. The chunks are counted first and read later, so a
      lookup sees them at two moments. */
  class SeekTables {
    var entries: Entries

    constructor ()
      ensures entries == map[]
    {
      entries := map[];
    }

    method Lookup(counted: Chunks, built: Chunks, session: string) returns (table: seq<ChunkInfo>)
      modifies this
      ensures var hit := Served(old(entries), counted, session);
              if hit.Some? then table == hit.value && entries == old(entries)
              else
                && table == Table(built, session)
                && entries == Remember(old(entries), session, Cached(table, |SeqsOf(counted, session)|))
      // a hit is an entry of as many chunks as were counted; beyond the cache's bound
      // a miss forgets all others
      ensures var count := |SeqsOf(counted, session)|;
              if session in old(entries) && old(entries)[session].chunks == count then
                table == old(entries)[session].table && entries == old(entries)
              else
                entries == (if |old(entries)| > 32 then map[] else old(entries))[session := Cached(table, count)]
    {
      var count := |SeqsOf(counted, session)|;
      if session in entries && entries[session].chunks == count {
        return entries[session].table;
      }
      table := BuildTable(built, session);
      if |entries| > CACHE_ENTRIES {
        entries := map[];
      }
      entries := entries[session := Cached(table, count)];
    }
  }

  // ---- Runs ----

  /** A lookup between counting and reading the chunks. */
  datatype Looking = Looking(session: string, count: nat)

  datatype World = World(chunks: Chunks, entries: Entries, looking: map<nat, Looking>)

  datatype Step =
    | Arrive(b: Batch)
    | Erase(session: string)
    | Count(id: nat, session: string)
    | Build(id: nat)

  const Start := World(map[], map[], map[])

  function Next(w: World, step: Step): World {
    match step
    case Arrive(b) => w.(chunks := Deliver(w.chunks, b))
    case Erase(session) => w.(chunks := Erased(w.chunks, session))      // the cache is not told
    case Count(id, session) =>
      if Served(w.entries, w.chunks, session).Some? then w
      else w.(looking := w.looking[id := Looking(session, |SeqsOf(w.chunks, session)|)])
    case Build(id) =>
      if id !in w.looking then w
      else
        var l := w.looking[id];
        w.(entries := Remember(w.entries, l.session, Cached(Table(w.chunks, l.session), l.count)), looking := w.looking - {id})
  }

  function Run(steps: seq<Step>): World
    decreases |steps|
  {
    if steps == [] then Start else Next(Run(steps[..|steps| - 1]), steps[|steps| - 1])
  }

  /** The moments an entry's count and its table were read. */
  ghost predicate Origin(steps: seq<Step>, session: string, c: Cached, i: nat, j: nat) {
    && i <= j <= |steps|
    && c.chunks == |SeqsOf(Run(steps[..i]).chunks, session)|
    && c.table == Table(Run(steps[..j]).chunks, session)
  }

  ghost predicate Counted(steps: seq<Step>, l: Looking, i: nat) {
    i <= |steps| && l.count == |SeqsOf(Run(steps[..i]).chunks, l.session)|
  }

  lemma {:induction false} LookingHasOrigin(steps: seq<Step>, id: nat) returns (i: nat)
    requires id in Run(steps).looking
    ensures Counted(steps, Run(steps).looking[id], i)
    decreases |steps|
  {
    var before, last := steps[..|steps| - 1], steps[|steps| - 1];
    var w := Run(before);
    if last.Count? && last.id == id && Served(w.entries, w.chunks, last.session).None? {
      i := |before|;
    } else {
      i := LookingHasOrigin(before, id);
      assert steps[..i] == before[..i];
    }
  }

  /** Every entry of every run was counted and built at moments of that run. */
  lemma {:induction false} EntryHasOrigin(steps: seq<Step>, session: string) returns (i: nat, j: nat)
    requires session in Run(steps).entries
    ensures Origin(steps, session, Run(steps).entries[session], i, j)
    decreases |steps|
  {
    hide Run, Next, Origin, Counted;
    LastStep(steps);
    var before, last := steps[..|steps| - 1], steps[|steps| - 1];
    NextEntries(Run(before), last, session);
    if BuildsFor(Run(before), last, session) {
      i := LookingHasOrigin(before, last.id);
      j := |before|;
      BuiltOrigin(steps, last.id, session, i);
    } else {
      i, j := EntryHasOrigin(before, session);
      EarlierOrigin(steps, session, Run(before).entries[session], i, j);
    }
  }

  predicate BuildsFor(w: World, step: Step, session: string) {
    step.Build? && step.id in w.looking && w.looking[step.id].session == session
  }

  lemma NextEntries(w: World, step: Step, session: string)
    requires session in Next(w, step).entries
    ensures if BuildsFor(w, step, session) then
              Next(w, step).entries[session] == Cached(Table(w.chunks, session), w.looking[step.id].count)
            else session in w.entries && Next(w, step).entries[session] == w.entries[session]
  {
    hide Table, SeqsOf;
  }

  lemma BuiltOrigin(steps: seq<Step>, id: nat, session: string, i: nat)
    requires steps != [] && id in Run(steps[..|steps| - 1]).looking && Run(steps[..|steps| - 1]).looking[id].session == session
    requires Counted(steps[..|steps| - 1], Run(steps[..|steps| - 1]).looking[id], i)
    ensures var w := Run(steps[..|steps| - 1]);
            Origin(steps, session, Cached(Table(w.chunks, session), w.looking[id].count), i, |steps| - 1)
  {
    hide Table, SeqsOf, Run;
    assert steps[..|steps| - 1][..i] == steps[..i];
  }

  lemma EarlierOrigin(steps: seq<Step>, session: string, c: Cached, i: nat, j: nat)
    requires steps != [] && Origin(steps[..|steps| - 1], session, c, i, j)
    ensures Origin(steps, session, c, i, j)
  {
    hide Table, SeqsOf, Run;
    assert steps[..|steps| - 1][..i] == steps[..i];
    assert steps[..|steps| - 1][..j] == steps[..j];
  }

  lemma LastStep(steps: seq<Step>)
    ensures steps != [] ==> Run(steps) == Next(Run(steps[..|steps| - 1]), steps[|steps| - 1])
    ensures steps == [] ==> Run(steps) == Start
  {}

  /** The exact condition: a table served from the cache is the current one exactly
      when the session has the rows it had when the entry was built. */
  lemma ServedIsCurrentIff(steps: seq<Step>, session: string) returns (i: nat, j: nat)
    requires Served(Run(steps).entries, Run(steps).chunks, session).Some?
    ensures Origin(steps, session, Run(steps).entries[session], i, j)
    ensures Served(Run(steps).entries, Run(steps).chunks, session).value == Table(Run(steps).chunks, session) <==>
              SameRows(Run(steps[..j]).chunks, Run(steps).chunks, session)
  {
    i, j := EntryHasOrigin(steps, session);
    TablesEqual(Run(steps[..j]).chunks, Run(steps).chunks, session);
  }

  /** Since moment i the session was not deleted, and no arrival put different
      events under a number in use. */
  ghost predicate Undisturbed(steps: seq<Step>, session: string, i: nat) {
    forall k :: i <= k < |steps| ==> Harmless(Run(steps[..k]).chunks, steps[k], session)
  }

  predicate Harmless(chunks: Chunks, step: Step, session: string) {
    match step
    case Erase(s) => s != session
    case Arrive(b) => b.session == session && b.number <= MAX_SEQ && KeyOfBatch(b) in chunks ==> chunks[KeyOfBatch(b)] == b.events
    case _ => true
  }

  lemma {:induction false} UndisturbedKeeps(steps: seq<Step>, session: string, i: nat, j: nat)
    requires i <= j <= |steps| && Undisturbed(steps, session, i)
    ensures Kept(Run(steps[..i]).chunks, Run(steps[..j]).chunks, session)
    decreases j - i
  {
    if i < j {
      UndisturbedKeeps(steps, session, i, j - 1);
      assert steps[..j][..j - 1] == steps[..j - 1];
      assert Harmless(Run(steps[..j - 1]).chunks, steps[j - 1], session);
    }
  }

  /** What a caller can check: undisturbed since its chunks were counted, an entry
      with as many chunks is current. */
  lemma UndisturbedIsCurrent(steps: seq<Step>, session: string, i: nat, j: nat)
    requires Served(Run(steps).entries, Run(steps).chunks, session).Some?
    requires Origin(steps, session, Run(steps).entries[session], i, j) && Undisturbed(steps, session, i)
    ensures Served(Run(steps).entries, Run(steps).chunks, session).value == Table(Run(steps).chunks, session)
  {
    hide Run, Table, SeqsOf, Undisturbed, Kept;
    assert steps[..|steps|] == steps;
    UndisturbedKeeps(steps, session, i, j);
    UndisturbedSince(steps, session, i, j);
    UndisturbedKeeps(steps, session, i, |steps|);
    UndisturbedKeeps(steps, session, j, |steps|);
    SameBetween(Run(steps[..i]).chunks, Run(steps[..j]).chunks, Run(steps).chunks, session);
  }

  lemma UndisturbedSince(steps: seq<Step>, session: string, i: nat, j: nat)
    requires i <= j && Undisturbed(steps, session, i)
    ensures Undisturbed(steps, session, j)
  {}

  /** Between two moments with as many chunks nothing was added either. */
  lemma SameBetween(a: Chunks, b: Chunks, c: Chunks, session: string)
    requires Kept(a, b, session) && Kept(b, c, session) && Kept(a, c, session)
    requires |SeqsOf(a, session)| == |SeqsOf(c, session)|
    ensures Table(b, session) == Table(c, session)
  {
    CountTellsStaleness(a, c, session);
    forall n | n in SeqsOf(a, session) ensures n in SeqsOf(b, session) { assert ChunkKey(session, n) in b; }
    forall n | n in SeqsOf(b, session) ensures n in SeqsOf(c, session) { assert ChunkKey(session, n) in c; }
    hide Table;
    assert SeqsOf(b, session) == SeqsOf(c, session);
    CountTellsStaleness(b, c, session);
  }

  // ---- Sound numbering does not suffice ----

  /** With sound numbering every stored chunk is a batch of the recording. */
  lemma {:induction false} StoredWasSent(steps: seq<Step>, sent: seq<Batch>, k: ChunkKey) returns (b: Batch)
    requires (forall i :: 0 <= i < |steps| && steps[i].Arrive? ==> steps[i].b in sent) && k in Run(steps).chunks
    ensures b in sent && KeyOfBatch(b) == k && Run(steps).chunks[k] == b.events
    decreases |steps|
  {
    var before, last := steps[..|steps| - 1], steps[|steps| - 1];
    if last.Arrive? && last.b.number <= MAX_SEQ && KeyOfBatch(last.b) == k {
      b := last.b;
    } else {
      b := StoredWasSent(before, sent, k);
    }
  }

  /** With sound numbering only a deletion can disturb an entry. */
  lemma NumberedMeansNoRewrite(steps: seq<Step>, sent: seq<Batch>, session: string, i: nat)
    requires Numbered(sent) && forall k :: 0 <= k < |steps| && steps[k].Arrive? ==> steps[k].b in sent
    ensures Undisturbed(steps, session, i) <==> forall k :: i <= k < |steps| ==> steps[k] != Erase(session)
  {
    forall k | i <= k < |steps| ensures Harmless(Run(steps[..k]).chunks, steps[k], session) <==> steps[k] != Erase(session) {
      if steps[k].Arrive? && KeyOfBatch(steps[k].b) in Run(steps[..k]).chunks {
        var b := StoredWasSent(steps[..k], sent, KeyOfBatch(steps[k].b));
        OneBatchPerKey(sent, b, steps[k].b);
      }
    }
    hide Run, Harmless;
    assert Undisturbed(steps, session, i) <==> forall k :: i <= k < |steps| ==> Harmless(Run(steps[..k]).chunks, steps[k], session);
  }

  /** A session cached, deleted, and sent to again by its still open tab. */
  function StaleRun(session: string, early: seq<Event>, late: seq<Event>): seq<Step> {
    [Arrive(Batch(session, 0, early)), Count(0, session), Build(0), Erase(session), Arrive(Batch(session, 1, late))]
  }

  lemma OneChunk(session: string, n: nat, events: seq<Event>)
    requires n <= MAX_SEQ
    ensures Deliver(map[], Batch(session, n, events)) == map[ChunkKey(session, n) := events]
    ensures SeqsOf(map[ChunkKey(session, n) := events], session) == {n}
    ensures Erased(map[ChunkKey(session, n) := events], session) == map[]
  {
    var chunks: Chunks := map[ChunkKey(session, n) := events];
    assert ChunkKey(session, n) in chunks.Keys;
  }

  /** The worlds of the stale run. */
  lemma StaleWorlds(session: string, early: seq<Event>, late: seq<Event>)
    ensures var built := Table(map[ChunkKey(session, 0) := early], session);
            Run(StaleRun(session, early, late)) == World(map[ChunkKey(session, 1) := late], map[session := Cached(built, 1)], map[])
  {
    var steps := StaleRun(session, early, late);
    hide Table, Run, Deliver, Erased, SeqsOf, Next;
    OneChunk(session, 0, early);
    OneChunk(session, 1, late);
    LastStep([]);
    assert steps[..0] == [] && steps[..5] == steps;
    RunNext(steps, 0);
    RunNext(steps, 1);
    RunNext(steps, 2);
    RunNext(steps, 3);
    RunNext(steps, 4);
    ChunkSteps(Start, Batch(session, 0, early), session);
    var w1 := Run(steps[..1]);
    LookupSteps(w1.chunks, session);
    var w3 := Run(steps[..3]);
    ChunkSteps(w3, Batch(session, 1, late), session);
    ChunkSteps(Run(steps[..4]), Batch(session, 1, late), session);
  }

  lemma ChunkSteps(w: World, b: Batch, session: string)
    ensures Next(w, Arrive(b)) == w.(chunks := Deliver(w.chunks, b))
    ensures Next(w, Erase(session)) == w.(chunks := Erased(w.chunks, session))
  {}

  /** A lookup on an empty cache. */
  lemma LookupSteps(chunks: Chunks, session: string)
    ensures Next(Next(World(chunks, map[], map[]), Count(0, session)), Build(0))
            == World(chunks, map[session := Cached(Table(chunks, session), |SeqsOf(chunks, session)|)], map[])
  {
    hide Table, SeqsOf;
    var w := Next(World(chunks, map[], map[]), Count(0, session));
    assert w.looking == map[0 := Looking(session, |SeqsOf(chunks, session)|)];
    assert w.looking - {0} == map[];
  }

  /** The failing run: the numbering is sound, the chunk count is that of the entry,
      and the table served is not the session's. */
  lemma DeletedSessionGoesStale(session: string, early: seq<Event>, late: seq<Event>)
    requires early != [] && late != []
    ensures Numbered([Batch(session, 0, early), Batch(session, 1, late)])
    ensures var w := Run(StaleRun(session, early, late));
            Served(w.entries, w.chunks, session).Some? && Served(w.entries, w.chunks, session).value != Table(w.chunks, session)
  {
    hide Table, Run, Info;
    StaleWorlds(session, early, late);
    OneChunk(session, 1, late);
    var was, now := map[ChunkKey(session, 0) := early], map[ChunkKey(session, 1) := late];
    TablesEqual(was, now, session);
    assert RowAt(was, session, 0) != RowAt(now, session, 0);
  }

  lemma RunNext(steps: seq<Step>, i: nat)
    requires i < |steps|
    ensures Run(steps[..i + 1]) == Next(Run(steps[..i]), steps[i])
  {
    assert steps[..i + 1][..i] == steps[..i];
  }
}
