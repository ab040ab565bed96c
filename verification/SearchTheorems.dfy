/** What the search index invariant buys: an exact index once it is ready, one
    rowid per document, exact removal, honest progress counts, and a worker that
    settles. */
module SearchTheorems {
  import opened Rows
  import opened Tables
  import opened SearchIndex
  import opened SearchInvariant

  // ---- Exactness ----

  function SessionKeys(t: Store): set<DocKey> { set r | r in t.sessions :: DocKey(r, 0) }
  function PageKeys(t: Store): set<DocKey> { set p | p in t.pages :: PageKey(t.pages[p]) }
  function SessionLogs(t: Store): set<int> { set l | l in t.logs && t.logs[l].session.Some? }

  /** One document per row, each holding that row's current text, and no others. */
  ghost predicate Exact(db: Db) {
    && db.docs.Keys == SessionKeys(db.t) + PageKeys(db.t) + db.eventDoc.Values + db.logDoc.Values
    && db.eventDoc.Keys == db.t.events.Keys && db.logDoc.Keys == SessionLogs(db.t)
    && (forall r :: r in db.t.sessions ==> db.docs[DocKey(r, 0)] == SessionBody(db.t.sessions[r]))
    && (forall p :: p in db.t.pages ==> db.docs[PageKey(db.t.pages[p])] == PageBody(db.t.pages[p]))
    && EventsMapped(db) && LogsMapped(db)
  }

  lemma ReadyKeys(db: Db)
    requires Sound(db) && EventsMapped(db) && LogsMapped(db) && Complete(db) && db.st.phase == Ready
    ensures db.docs.Keys == SessionKeys(db.t) + PageKeys(db.t) + db.eventDoc.Values + db.logDoc.Values
  {
    hide EventsMapped, LogsMapped, Complete, DocOk;
    var keys := SessionKeys(db.t) + PageKeys(db.t) + db.eventDoc.Values + db.logDoc.Values;
    forall k | k in db.docs ensures k in keys { DocIsOfRow(db, k); }
    forall k | k in keys ensures k in db.docs { RowHasDoc(db, k); }
  }

  lemma DocIsOfRow(db: Db, k: DocKey)
    requires k in db.docs && DocOk(db, k)
    ensures k in SessionKeys(db.t) || k in PageKeys(db.t) || k in db.eventDoc.Values || k in db.logDoc.Values
  {
    if k.item == 0 { assert k == DocKey(k.session, 0); }
  }

  lemma RowHasDoc(db: Db, k: DocKey)
    requires EventsMapped(db) && LogsMapped(db) && Complete(db) && db.st.phase == Ready
    requires k in SessionKeys(db.t) || k in PageKeys(db.t) || k in db.eventDoc.Values || k in db.logDoc.Values
    ensures k in db.docs
  {
    if k in db.eventDoc.Values {
      var e := KeyOf(db.eventDoc, k);
    } else if k in db.logDoc.Values {
      var l := KeyOf(db.logDoc, k);
    }
  }

  lemma ReadyBodies(db: Db)
    requires Sound(db) && Complete(db) && TablesOk(db.t) && db.st.phase == Ready
    ensures forall r :: r in db.t.sessions ==> DocKey(r, 0) in db.docs && db.docs[DocKey(r, 0)] == SessionBody(db.t.sessions[r])
    ensures forall p :: p in db.t.pages ==> PageKey(db.t.pages[p]) in db.docs && db.docs[PageKey(db.t.pages[p])] == PageBody(db.t.pages[p])
  {
    forall r | r in db.t.sessions ensures DocKey(r, 0) in db.docs && db.docs[DocKey(r, 0)] == SessionBody(db.t.sessions[r]) {
      assert DocOk(db, DocKey(r, 0));
    }
    forall p | p in db.t.pages ensures PageKey(db.t.pages[p]) in db.docs && db.docs[PageKey(db.t.pages[p])] == PageBody(db.t.pages[p]) {
      assert DocOk(db, PageKey(db.t.pages[p]));
    }
  }

  lemma ReadyMapped(db: Db)
    requires EventsMapped(db) && LogsMapped(db) && Complete(db) && db.st.phase == Ready && !db.st.overflowed
    ensures db.eventDoc.Keys == db.t.events.Keys && db.logDoc.Keys == SessionLogs(db.t)
  {
    forall e ensures e in db.t.events <==> e in db.eventDoc {
      if e in db.t.events { assert EventDue(db, e); }
    }
    forall l ensures l in SessionLogs(db.t) <==> l in db.logDoc {
      if l in SessionLogs(db.t) { assert LogDue(db, l); }
    }
  }

  /** Ready and not overflowed means the index is exactly complete. */
  lemma ReadyIsExact(db: Db)
    requires Inv(db) && db.st.phase == Ready && !db.st.overflowed
    ensures Exact(db)
  {
    assert LiveOk(db);
    hide Inv, Sound, EventsMapped, LogsMapped, Complete, NotEarly, CutoffsOk;
    ReadyKeys(db);
    ReadyMapped(db);
    hide SessionKeys, PageKeys, SessionLogs;
    ReadyBodies(db) by { assert TablesOk(db.t) by { InvTables(db); } }
  }

  lemma InvTables(db: Db)
    requires Inv(db)
    ensures TablesOk(db.t)
  {
    hide TablesOk, LiveOk;
  }

  lemma {:induction false} ValuesSize(m: map<int, DocKey>)
    requires forall x, y :: x in m && y in m && m[x] == m[y] ==> x == y
    ensures |m.Values| == |m|
    decreases |m|
  {
    if m != map[] {
      var x := Member(m.Keys);
      var rest := m - {x};
      ValuesSize(rest);
      assert rest.Keys == m.Keys - {x};
      forall v ensures v in m.Values <==> v in rest.Values + {m[x]} {
        if v in m.Values {
          var y := KeyOf(m, v);
          assert y == x || (y in rest && rest[y] == v);
        }
        if v in rest.Values {
          var y := KeyOf(rest, v);
          assert m[y] == v;
        }
      }
      assert m.Values == rest.Values + {m[x]};
      assert m[x] !in rest.Values;
    }
  }

  lemma KeysOfRows(t: Store)
    requires TablesOk(t)
    ensures |SessionKeys(t)| == |t.sessions| && |PageKeys(t)| == |t.pages|
  {
    var byRow := map r | r in t.sessions :: DocKey(r, 0);
    ValuesSize(byRow);
    assert byRow.Keys == t.sessions.Keys && byRow.Values == SessionKeys(t);
    KeysOfPages(t);
  }

  lemma KeysOfPages(t: Store)
    requires TablesOk(t)
    ensures |PageKeys(t)| == |t.pages|
  {
    var byPage := map p | p in t.pages :: PageKey(t.pages[p]);
    ValuesSize(byPage);
    assert byPage.Keys == t.pages.Keys && byPage.Values == PageKeys(t);
  }

  /** An exact index holds as many documents as there are rows to find. */
  lemma ExactCount(db: Db)
    requires TablesOk(db.t) && Exact(db)
    ensures |db.docs| == |db.t.sessions| + |db.t.pages| + |db.t.events| + |SessionLogs(db.t)|
  {
    ValuesSize(db.eventDoc);
    ValuesSize(db.logDoc);
    KeysOfRows(db.t);
    KeysApart(db);
    hide TablesOk, EventsMapped, LogsMapped, SessionKeys, PageKeys, SessionLogs;
    FourParts(SessionKeys(db.t), PageKeys(db.t), db.eventDoc.Values, db.logDoc.Values);
  }

  lemma KeysApart(db: Db)
    requires TablesOk(db.t) && EventsMapped(db) && LogsMapped(db)
    ensures SessionKeys(db.t) !! PageKeys(db.t) !! db.eventDoc.Values !! db.logDoc.Values
  {
    forall k | k in SessionKeys(db.t) ensures k.item == 0 {}
    forall k | k in PageKeys(db.t) ensures 1 <= k.item < ITEM_FIRST_DYNAMIC {}
    forall k | k in db.eventDoc.Values ensures k.item >= ITEM_FIRST_DYNAMIC { var e := KeyOf(db.eventDoc, k); }
    forall k | k in db.logDoc.Values ensures k.item >= ITEM_FIRST_DYNAMIC && k !in db.eventDoc.Values {
      var l := KeyOf(db.logDoc, k);
      if k in db.eventDoc.Values { var e := KeyOf(db.eventDoc, k); }
    }
  }

  lemma FourParts<T>(a: set<T>, b: set<T>, c: set<T>, d: set<T>)
    requires a !! b !! c !! d
    ensures |a + b + c + d| == |a| + |b| + |c| + |d|
  {
    assert |a + b| == |a| + |b|;
    assert |a + b + c| == |a + b| + |c|;
    assert |a + b + c + d| == |a + b + c| + |d|;
  }

  // ---- Rowids ----

  /** The 24-bit packing gives every session its own range and every item in it
      its own rowid; shifting right recovers the session. */
  lemma PackIsExact(j: DocKey, k: DocKey)
    requires 0 <= j.item <= 0xFF_FFFF && 0 <= k.item <= 0xFF_FFFF
    ensures Pack(j) == Pack(k) <==> j == k
    ensures j.session < k.session ==> Pack(j) < Pack(k)
    ensures Pack(j) / 0x100_0000 == j.session && Pack(j) % 0x100_0000 == j.item
    ensures j.session * 0x100_0000 <= Pack(k) <= j.session * 0x100_0000 + 0xFF_FFFF <==> k.session == j.session
  {}

  /** In a live index no two documents share a rowid, page items stay at most
      10001, and event and log items start at 10002. */
  lemma RowidsDistinct(db: Db, j: DocKey, k: DocKey)
    requires Inv(db) && Live(db) && j in db.docs && k in db.docs
    ensures !db.clash
    ensures Pack(j) == Pack(k) <==> j == k
    ensures k.item < ITEM_FIRST_DYNAMIC <==>
              k == DocKey(k.session, 0) || exists p :: p in db.t.pages && PageKey(db.t.pages[p]) == k
  {
    assert Sound(db);
    assert DocOk(db, j) && DocOk(db, k);
    PackIsExact(j, k);
    if p :| p in db.t.pages && PageKey(db.t.pages[p]) == k { assert TablesOk(db.t); }
  }

  /** A tracked event's or log's document takes a rowid above every other in its
      session's range; when there is none left the index overflows instead. */
  lemma NewItemIsHighest(db: Db, e: int, ev: Event)
    requires Inv(db) && db.triggers && EventFits(db.t, e, ev) && !db.st.overflowed
    ensures var db' := InsertEvent(db, e, ev);
            if db'.st.overflowed
            then db'.docs == db.docs && ITEM_MAX in ItemsOf(db.docs, ev.session)
            else
              && e in db'.eventDoc && db'.eventDoc[e].session == ev.session
              && ITEM_FIRST_DYNAMIC <= db'.eventDoc[e].item <= ITEM_MAX
              && db'.docs == db.docs[db'.eventDoc[e] := EventBody(ev)]
              && forall k :: k in db.docs && k.session == ev.session ==> k.item < db'.eventDoc[e].item
  {
    TopItemBounds(db.docs, ev.session);
    if !HasRoom(db, ev.session) { FullRange(db, ev.session); }
    hide Inv, TopItem, HasRoom, HighestItem;
  }

  /** A range without room ends in the last item there is. */
  lemma LiveMaps(db: Db)
    requires Inv(db) && Live(db)
    ensures EventsMapped(db) && LogsMapped(db) && Sound(db) && NotEarly(db) && db.triggers
  {
    hide TablesOk, EventsMapped, LogsMapped, Sound, NotEarly, Complete, CutoffsOk;
  }

  lemma FullRange(db: Db, r: int)
    requires Inv(db) && Live(db) && !db.st.overflowed && !HasRoom(db, r)
    ensures ITEM_MAX in ItemsOf(db.docs, r)
  {
    hide Inv;
    LiveMaps(db);
    var h := HighestItem(db.docs, r);
    var k :| k in db.docs.Keys && k.session == r && k.item == h;
    assert DocOk(db, k);
  }

  /** Deleting a log removes exactly that log's document and mapping. */
  lemma LogOutIsExact(db: Db, l: int)
    requires Inv(db) && Live(db) && l in db.t.logs
    ensures var db' := DeleteLog(db, l);
            && db'.logDoc == db.logDoc - {l}
            && db'.docs == (if l in db.logDoc then db.docs - {db.logDoc[l]} else db.docs)
            && (forall m :: m in db.logDoc && m != l ==> db.logDoc[m] in db'.docs)
            && (forall e :: e in db.eventDoc ==> db.eventDoc[e] in db'.docs)
            && (forall k :: k in db.docs && k.item < ITEM_FIRST_DYNAMIC ==> k in db'.docs)
  {
    hide Inv;
    LiveMaps(db);
    if l !in db.logDoc { assert db.logDoc - {l} == db.logDoc; } else { LogOutLeaves(db, l); }
  }

  lemma LogOutLeaves(db: Db, l: int)
    requires EventsMapped(db) && LogsMapped(db) && l in db.logDoc
    ensures forall m :: m in db.logDoc && m != l ==> db.logDoc[m] in db.docs - {db.logDoc[l]}
    ensures forall e :: e in db.eventDoc ==> db.eventDoc[e] in db.docs - {db.logDoc[l]}
    ensures forall k :: k in db.docs && k.item < ITEM_FIRST_DYNAMIC ==> k in db.docs - {db.logDoc[l]}
  {}

  // ---- Progress ----

  /** While building, the reported total is what is done plus what is left;
      switched off, the index leaves no trigger and no table behind. */
  lemma CountsAndResidue(steps: seq<Step>)
    requires IsRun(Fresh, steps)
    ensures var db := After(Fresh, steps);
            && (db.st.phase == Building ==>
                  db.st.total == db.st.done + |RemainingSessions(db.t, db.st.next, db.st.cutSessions)|)
            && (db.st.phase == Off ==> !db.triggers && !db.present && db.docs == map[] && db.logDoc == map[])
  {
    Reachable(steps);
    hide TablesOk, LiveOk, RemainingSessions;
  }

  predicate Settled(db: Db) {
    db.st.phase == (if db.st.enabled then Ready else Off)
  }

  function Rank(db: Db): nat {
    match db.st.phase
    case Off => if db.st.enabled then 2 else 0
    case Building => if db.st.enabled then 1 else 2
    case Ready => if db.st.enabled then 0 else 2
    case Dropping => if db.st.enabled then 3 else 1
  }

  function Left(db: Db): nat {
    match db.st.phase
    case Off => 0
    case Building => |RemainingSessions(db.t, db.st.next, db.st.cutSessions)|
    case Ready => 0
    case Dropping => |db.docs|
  }

  /** Neither the setting nor a failure moves, and the worker reads the setting. */
  predicate Steady(db: Db, step: Step) {
    match step
    case Switch(_) => false
    case WorkFailed => false
    case Work(enabled, _, _, _) => enabled == db.st.enabled
    case _ => true
  }

  predicate Working(step: Step) {
    step.Work? && !step.busy
  }

  lemma DropShrinks(db: Db, rows: nat)
    requires db.docs != map[] && rows > 0
    ensures |db.docs - LowestDocs(db.docs, rows)| < |db.docs|
  {
    var packed := set k | k in db.docs.Keys :: Pack(k);
    var k0 := Member(db.docs.Keys);
    assert Pack(k0) in packed;
    var order := Sorted(packed);
    var gone := if |order| <= rows then order else order[..rows];
    assert order[0] in order && gone[0] == order[0];
    var k :| k in db.docs.Keys && Pack(k) == order[0];
    var rest := db.docs - LowestDocs(db.docs, rows);
    assert k in LowestDocs(db.docs, rows);
    assert rest.Keys <= db.docs.Keys - {k};
    Subset(rest.Keys, db.docs.Keys - {k});
  }

  lemma Subset<T>(a: set<T>, b: set<T>)
    requires a <= b
    ensures |a| <= |b|
  {
    assert b == a + (b - a);
  }

  lemma LowestFirst(packed: set<int>, rows: nat)
    ensures var order := Sorted(packed);
            var first := if |order| <= rows then order else order[..rows];
            var taken := set x | x in first;
            && taken <= packed && |taken| == |first|
            && (forall x, y :: x in taken && y in packed - taken ==> x < y)
            && (|order| <= rows ==> taken == packed)
  {
    var order := Sorted(packed);
    if |order| <= rows {
      IncreasingSize(order);
      assert packed == set x | x in order;
    } else if rows > 0 {
      FirstOf(packed, rows);
    } else {
      assert order[..rows] == [];
    }
  }

  lemma FirstOf(packed: set<int>, n: nat)
    requires 0 < n <= |packed|
    ensures var first := Sorted(packed)[..n]; var taken := set x | x in first;
            && taken <= packed && |taken| == n && forall x, y :: x in taken && y in packed - taken ==> x < y
  {
    SortedPrefix(packed, n);
    IncreasingSize(Sorted(packed)[..n]);
  }

  function Packed(keys: set<DocKey>): set<int> {
    set k | k in keys :: Pack(k)
  }

  lemma LowestPacked(docs: map<DocKey, Body>, rows: nat)
    ensures var order := Sorted(Packed(docs.Keys));
            var first := if |order| <= rows then order else order[..rows];
            && Packed(LowestDocs(docs, rows)) == (set x | x in first)
            && (forall k :: k in docs.Keys ==> (k in LowestDocs(docs, rows) <==> Pack(k) in set x | x in first))
  {
    var packed := Packed(docs.Keys);
    var order := Sorted(packed);
    var first := if |order| <= rows then order else order[..rows];
    forall x | x in first ensures x in Packed(LowestDocs(docs, rows)) {
      assert x in order;
      assert x in packed;
      var k :| k in docs.Keys && Pack(k) == x;
      assert k in LowestDocs(docs, rows);
    }
  }

  lemma LowestTaken(docs: map<DocKey, Body>, rows: nat) returns (taken: set<int>)
    ensures taken <= Packed(docs.Keys) && Packed(LowestDocs(docs, rows)) == taken
    ensures forall k :: k in docs.Keys ==> (k in LowestDocs(docs, rows) <==> Pack(k) in taken)
    ensures forall x, y :: x in taken && y in Packed(docs.Keys) && y !in taken ==> x < y
    ensures |taken| <= rows && (taken != Packed(docs.Keys) ==> |taken| == rows)
  {
    LowestFirst(Packed(docs.Keys), rows);
    LowestPacked(docs, rows);
    hide LowestDocs, Packed, Pack, Increasing;
    var order := Sorted(Packed(docs.Keys));
    var first := if |order| <= rows then order else order[..rows];
    hide Sorted;
    taken := set x | x in first;
  }

  /** A drop batch takes the lowest rowids first, as many as it may or all. */
  lemma DropsLowest(docs: map<DocKey, Body>, rows: nat)
    ensures var gone := LowestDocs(docs, rows);
            && (forall j, k :: j in gone && k in docs.Keys && k !in gone ==> Pack(j) < Pack(k))
            && |Packed(gone)| <= rows
            && (gone < docs.Keys ==> |Packed(gone)| == rows)
  {
    assert LowestDocs(docs, rows) <= docs.Keys;
    var taken := LowestTaken(docs, rows);
    hide LowestDocs;
    if LowestDocs(docs, rows) < docs.Keys {
      var k := Member(docs.Keys - LowestDocs(docs, rows));
      assert Pack(k) in Packed(docs.Keys) && Pack(k) !in taken;
    }
  }

  /** The session whose documents an ingest or deleting step may touch. */
  function Owner(db: Db, step: Step): Option<int> {
    match step
    case SessionIn(r, _) => Some(r)
    case SessionUp(r, _) => Some(r)
    case SessionOut(r) => Some(r)
    case PageIn(_, page) => Some(page.session)
    case PageUp(p, _, _) => if p in db.t.pages then Some(db.t.pages[p].session) else None
    case EventIn(_, ev) => Some(ev.session)
    case LogIn(_, lg) => lg.session
    case LogOut(l) => if l in db.t.logs then db.t.logs[l].session else None
    case _ => None
  }

  /** It touches no document of any other session. */
  lemma OthersUntouched(db: Db, step: Step, k: DocKey)
    requires Inv(db) && TablesOk(db.t) && Enabled(db, step) && !step.Work? && Owner(db, step) != Some(k.session)
    ensures var docs := Apply(db, step).docs;
            k in docs <==> k in db.docs
    ensures k in db.docs ==> Apply(db, step).docs[k] == db.docs[k]
  {
    hide Inv, TablesOk, SessionFits, PageFits, EventFits, LogFits, InsertEvent, InsertLog, DeleteLog, DeleteSession;
    match step
    case SessionOut(r) => OutOthers(db, r, k);
    case EventIn(e, ev) => EventOthers(db, e, ev, k);
    case LogIn(l, lg) => LogOthers(db, l, lg, k);
    case LogOut(l) => LogOutOthers(db, l, k);
    case _ =>
  }

  lemma OutOthers(db: Db, r: int, k: DocKey)
    requires Inv(db) && k.session != r
    ensures k in DeleteSession(db, r).docs <==> k in db.docs
    ensures k in db.docs ==> DeleteSession(db, r).docs[k] == db.docs[k]
  {
    hide Inv;
    MapsIfLive(db);
    if db.triggers {
      DeleteRemovesRange(db, r);
      OutDocs(db, r, k);
    }
  }

  lemma EventOthers(db: Db, e: int, ev: Event, k: DocKey)
    requires k.session != ev.session
    ensures k in InsertEvent(db, e, ev).docs <==> k in db.docs
    ensures k in db.docs ==> InsertEvent(db, e, ev).docs[k] == db.docs[k]
  {
    hide TopItem, HasRoom, EventBody, PutEvent;
  }

  lemma LogOthers(db: Db, l: int, lg: Log, k: DocKey)
    requires lg.session != Some(k.session)
    ensures k in InsertLog(db, l, lg).docs <==> k in db.docs
    ensures k in db.docs ==> InsertLog(db, l, lg).docs[k] == db.docs[k]
  {
    hide TopItem, HasRoom, LogBody, PutLog;
  }

  lemma LogOutOthers(db: Db, l: int, k: DocKey)
    requires Inv(db) && l in db.t.logs && db.t.logs[l].session != Some(k.session)
    ensures k in DeleteLog(db, l).docs <==> k in db.docs
    ensures k in db.docs ==> DeleteLog(db, l).docs[k] == db.docs[k]
  {
    hide Inv;
    MapsIfLive(db);
  }

  lemma OutDocs(db: Db, r: int, k: DocKey)
    requires SessionGone(db, DeleteSession(db, r), r) && k.session != r
    ensures k in DeleteSession(db, r).docs <==> k in db.docs
    ensures k in db.docs ==> DeleteSession(db, r).docs[k] == db.docs[k]
  {
    hide DeleteSession;
  }

  lemma MapsIfLive(db: Db)
    requires Inv(db)
    ensures db.triggers ==> EventsMapped(db) && LogsMapped(db)
  {
    hide TablesOk, EventsMapped, LogsMapped, Sound, NotEarly, Complete, CutoffsOk;
  }

  /** Every unhindered worker step short of the settled state makes progress. */
  lemma WorkDescends(db: Db, size: nat, rows: nat)
    requires Inv(db) && !Settled(db) && !db.st.failed && size > 0 && rows > 0
    ensures var db' := RunStep(db, db.st.enabled, false, size, rows).0;
            Rank(db') < Rank(db) || (Rank(db') == Rank(db) && Left(db') < Left(db))
  {
    hide Inv, TablesOk, BuildBatch, DropBatch, StartBuild, Left;
    InvTables(db);
    if db.st.phase == Building && db.st.enabled {
      BuildDescends(db, size);
    } else if db.st.phase == Dropping {
      DropDescends(db, rows);
    } else {
      StartDescends(db);
    }
  }

  lemma StartDescends(db: Db)
    ensures StartBuild(db).st.phase == Building && StartBuild(db).st.enabled == db.st.enabled
  {}

  lemma BuildDescends(db: Db, size: nat)
    requires Inv(db) && TablesOk(db.t) && db.st.phase == Building && db.st.enabled && size > 0
    ensures var db' := BuildBatch(db, size); Rank(db') < Rank(db) || (Rank(db') == Rank(db) && Left(db') < Left(db))
  {
    hide Inv, TablesOk, RemainingSessions, Batch, IndexSessions;
    if Batch(db, size) != [] {
      BatchShrinks(db, size);
      BatchMembers(db, size);
      BatchFrameOf(db, Batch(db, size));
    }
  }

  lemma DropDescends(db: Db, rows: nat)
    requires Inv(db) && db.st.phase == Dropping && rows > 0
    ensures var db' := DropBatch(db, rows); Rank(db') < Rank(db) || (Rank(db') == Rank(db) && Left(db') < Left(db))
  {
    hide Inv, LowestDocs;
    if db.docs != map[] { DropShrinks(db, rows); }
  }

  lemma {:induction false} BatchFrameOf(db: Db, ids: seq<int>)
    requires TablesOk(db.t) && forall r :: r in ids ==> r in db.t.sessions
    ensures IndexSessions(db, ids).st == db.st.(overflowed := IndexSessions(db, ids).st.overflowed, overflowSession := IndexSessions(db, ids).st.overflowSession)
    decreases |ids|
  {
    if ids != [] {
      hide TablesOk, IndexSession;
      BatchFrameOf(db, ids[..|ids| - 1]);
      SessionFrameOf(IndexSessions(db, ids[..|ids| - 1]), ids[|ids| - 1]);
    }
  }

  lemma SessionFrameOf(db: Db, r: int)
    requires TablesOk(db.t) && r in db.t.sessions
    ensures IndexSession(db, r).st == db.st.(overflowed := IndexSession(db, r).st.overflowed, overflowSession := IndexSession(db, r).st.overflowSession)
  {
    hide TablesOk, StaticDocs, OldEvents, OldLogs, TopItem, Numbered, Slots, EventBodies, LogBodies;
  }

  /** No step that leaves the setting alone undoes progress. */
  lemma SteadyDescends(db: Db, step: Step)
    requires Inv(db) && Enabled(db, step) && Steady(db, step) && !db.st.failed
    ensures var db' := Apply(db, step);
            && !db'.st.failed && db'.st.enabled == db.st.enabled
            && (Rank(db') < Rank(db) || (Rank(db') == Rank(db) && Left(db') <= Left(db)))
            && (Working(step) && !Settled(db) ==> Rank(db') < Rank(db) || Left(db') < Left(db))
  {
    if step.Work? {
      WorkSteady(db, step.busy, step.size, step.rows);
    } else {
      IngestSteady(db, step);
    }
  }

  lemma WorkSteady(db: Db, busy: bool, size: nat, rows: nat)
    requires Inv(db) && !db.st.failed && size > 0 && rows > 0
    ensures var db' := RunStep(db, db.st.enabled, busy, size, rows).0;
            && !db'.st.failed && db'.st.enabled == db.st.enabled
            && (Rank(db') < Rank(db) || (Rank(db') == Rank(db) && Left(db') <= Left(db)))
            && (!busy && !Settled(db) ==> Rank(db') < Rank(db) || Left(db') < Left(db))
  {
    hide Inv, TablesOk, RunStep, Rank, Left;
    InvTables(db);
    SettingStays(db, busy, size, rows);
    BusyWaits(db, busy, size, rows);
    if !Settled(db) { WorkDescends(db, size, rows); }
  }

  lemma SettingStays(db: Db, busy: bool, size: nat, rows: nat)
    requires TablesOk(db.t) && !db.st.failed
    ensures var db' := RunStep(db, db.st.enabled, busy, size, rows).0; !db'.st.failed && db'.st.enabled == db.st.enabled
  {
    hide TablesOk, RemainingSessions, Batch, IndexSessions, LowestDocs;
    if db.st.phase == Building {
      BatchMembers(db, size);
      BatchFrameOf(db, Batch(db, size));
    }
  }

  /** A busy worker does what it would otherwise do, or nothing. */
  lemma BusyWaits(db: Db, busy: bool, size: nat, rows: nat)
    requires TablesOk(db.t)
    ensures var db' := RunStep(db, db.st.enabled, busy, size, rows).0;
            && (db' == db || db' == RunStep(db, db.st.enabled, false, size, rows).0)
            && (Settled(db) ==> db' == db)
            && (busy && ((db.st.phase == Building && db.st.enabled) || db.st.phase == Dropping) ==> db' == db)
            && (db.st.failed ==> db' == db)
  {
    hide TablesOk, BuildBatch, DropBatch, StartBuild, StartDrop;
  }

  /** Ingest leaves the phase alone, and documents too while no trigger stands. */
  lemma IngestFrame(db: Db, step: Step)
    requires TablesOk(db.t) && Enabled(db, step) && Steady(db, step) && !step.Work? && ProgressOk(db)
    ensures var db' := Apply(db, step);
            && db'.st == db.st.(total := db'.st.total, overflowed := db'.st.overflowed, overflowSession := db'.st.overflowSession)
            && (!db.triggers ==> db'.docs == db.docs)
  {
    hide TablesOk, InsertEvent, InsertLog, DeleteSession, RemainingSessions, ProgressOk;
    hide UpdateSession, UpdatePage, SessionFits, PageFits, EventFits, LogFits;
    match step
    case SessionUp(r, s) => UpdateFrame(db, r, s);
    case PageUp(p, url, title) => UpdatePageFrame(db, p, url, title);
    case EventIn(e, ev) => EventInFrame(db, e, ev);
    case LogIn(l, lg) => LogInFrame(db, l, lg);
    case SessionOut(r) => DeleteFrame(db, r);
    case _ =>
  }

  lemma IngestRemaining(db: Db, step: Step)
    requires TablesOk(db.t) && Enabled(db, step) && !step.Work? && db.st.cutSessions <= db.t.lastSession
    ensures RemainingSessions(Apply(db, step).t, db.st.next, db.st.cutSessions) <= RemainingSessions(db.t, db.st.next, db.st.cutSessions)
  {
    hide TablesOk;
  }

  lemma IngestSteady(db: Db, step: Step)
    requires Inv(db) && Enabled(db, step) && Steady(db, step) && !step.Work?
    ensures var db' := Apply(db, step);
            && db'.st == db.st.(total := db'.st.total, overflowed := db'.st.overflowed, overflowSession := db'.st.overflowSession)
            && Left(db') <= Left(db)
  {
    InvTables(db);
    assert db.triggers <==> Live(db);
    assert db.st.phase == Building ==> CutoffsOk(db);
    hide Inv, TablesOk, Apply, Enabled, Steady, RemainingSessions;
    IngestFrame(db, step);
    if db.st.phase == Building {
      IngestRemaining(db, step);
      Subset(RemainingSessions(Apply(db, step).t, db.st.next, db.st.cutSessions), RemainingSessions(db.t, db.st.next, db.st.cutSessions));
    }
  }

  // ---- Settling ----

  /** An endless run in which the setting stands still, steps succeed, and the
      worker gets an unhindered turn again and again. */
  ghost predicate SteadyRun(db: nat -> Db, step: nat -> Step) {
    && (forall n: nat :: TablesOk(db(n).t) && Enabled(db(n), step(n)) && Steady(db(n), step(n)) && db(n + 1) == Apply(db(n), step(n)))
    && (forall n: nat :: TurnFrom(step, n))
  }

  ghost predicate TurnFrom(step: nat -> Step, n: nat) {
    exists m: nat :: m >= n && Working(step(m))
  }

  /** Between two turns of the worker nothing is lost. */
  lemma {:induction false} UntilTurn(db: nat -> Db, step: nat -> Step, n: nat, turn: nat)
    requires SteadyRun(db, step) && Inv(db(n)) && !db(n).st.failed && n <= turn && Working(step(turn))
    requires forall i: nat :: n <= i <= turn ==> !Settled(db(i))
    ensures Inv(db(turn + 1)) && !db(turn + 1).st.failed
    ensures Rank(db(turn + 1)) < Rank(db(n)) || (Rank(db(turn + 1)) == Rank(db(n)) && Left(db(turn + 1)) < Left(db(n)))
    decreases turn - n
  {
    hide Inv, TablesOk, Enabled, Steady, Apply, Settled, Rank, Left;
    ApplyKeeps(db(n), step(n));
    SteadyDescends(db(n), step(n));
    if n < turn { UntilTurn(db, step, n + 1, turn); }
  }

  /** The worker comes to rest where the setting wants it: ready when the index
      is enabled, off when it is not. */
  lemma {:induction false} Settles(db: nat -> Db, step: nat -> Step, n: nat) returns (m: nat)
    requires SteadyRun(db, step) && Inv(db(n)) && !db(n).st.failed
    ensures m >= n && Settled(db(m))
    decreases Rank(db(n)), Left(db(n))
  {
    assert TurnFrom(step, n);
    var turn: nat :| turn >= n && Working(step(turn));
    if i: nat :| n <= i <= turn && Settled(db(i)) {
      m := i;
    } else {
      UntilTurn(db, step, n, turn);
      m := Settles(db, step, turn + 1);
    }
  }

  /** The worker asks not to be called back exactly when nothing is left to do:
      it has settled, or an error waits for an operator. */
  lemma RestsOnlyWhenSettled(db: Db, busy: bool, size: nat, rows: nat)
    requires Inv(db)
    ensures var (db', again) := RunStep(db, db.st.enabled, busy, size, rows);
            !again <==> db'.st.failed || Settled(db')
  {
    if db.st.phase == Building {
      BatchMembers(db, size);
      BatchFrameOf(db, Batch(db, size));
    }
    hide Inv, TablesOk, IndexSessions, Batch, LowestDocs;
  }
}
