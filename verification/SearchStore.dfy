/** The database object whose rows ingest and the index worker change in place.
    Every method does what its SQL statements and their triggers do, is proved
    against the step functions of SearchIndex, and keeps the invariant. */
module SearchStore {
  import opened Rows
  import opened Tables
  import opened SearchIndex
  import opened SearchInvariant
  import opened SearchTheorems

  class Database {
    var tables: Store
    var present: bool
    var triggers: bool
    var docs: map<DocKey, Body>
    var logDoc: map<int, DocKey>
    var st: State
    ghost var eventDoc: map<int, DocKey>
    ghost var clash: bool

    ghost function Now(): Db
      reads this
    {
      Db(tables, present, triggers, docs, logDoc, eventDoc, clash, st)
    }

    ghost predicate Valid()
      reads this
    {
      Inv(Now())
    }

    constructor ()
      ensures Valid() && Now() == Fresh
    {
      tables, present, triggers, docs, logDoc := EmptyStore, false, false, map[], map[];
      st, eventDoc, clash := Idle, map[], false;
      new;
      Reachable([]);
    }

    // ---- Index rows ----

    /** INSERT INTO session_search. */
    method InsertDoc(k: DocKey, body: Body)
      modifies this`docs, this`clash
      ensures Now() == Put(old(Now()), k, body)
    {
      clash := clash || k in docs;
      docs := docs[k := body];
    }

    /** DELETE, then INSERT under the same rowid. */
    method ReplaceDoc(k: DocKey, body: Body)
      modifies this`docs, this`clash
      ensures Now() == Replace(old(Now()), k, body)
    {
      var was := docs;
      docs := docs - {k};
      InsertDoc(k, body);
      assert docs == was[k := body];
    }

    // ---- Ingest ----

    method InsertSession(r: int, s: Session)
      requires Valid() && Enabled(Now(), SessionIn(r, s))
      modifies this
      ensures Now() == SearchIndex.InsertSession(old(Now()), r, s) && Valid()
      ensures tables == old(tables).(sessions := old(tables).sessions[r := s], lastSession := tables.lastSession)
    {
      hide Inv, Enabled;
      SessionInKeeps(Now(), r, s);
      tables := PutSession(tables, r, s);
      if triggers {
        InsertDoc(DocKey(r, 0), SessionBody(s));
      }
    }

    method UpdateSession(r: int, s: Session)
      requires Valid() && Enabled(Now(), SessionUp(r, s))
      modifies this
      ensures Now() == SearchIndex.UpdateSession(old(Now()), r, s) && Valid()
      ensures tables == old(tables).(sessions := old(tables).sessions[r := s], lastSession := tables.lastSession)
    {
      hide Inv, SessionFits;
      SessionUpKeeps(Now(), r, s);
      var was := tables.sessions[r];
      tables := PutSession(tables, r, s);
      if triggers && (was.initialUrl != s.initialUrl || was.exitUrl != s.exitUrl) {
        ReplaceDoc(DocKey(r, 0), SessionBody(s));
      }
    }

    /** SavePage's upsert: a page index seen before keeps its row. */
    method SavePage(r: int, idx: int, url: string, title: string) returns (p: int)
      requires Valid() && r in tables.sessions && 0 <= idx <= MAX_PAGE_INDEX
      modifies this
      ensures tables == old(tables).(pages := old(tables).pages[p := Page(r, idx, url, title)], lastPage := tables.lastPage)
      ensures Now() ==
                if p in old(tables.pages) then UpdatePage(old(Now()), p, url, title)
                else SearchIndex.InsertPage(old(Now()), p, Page(r, idx, url, title))
      ensures p in old(tables.pages) <==>
                exists q :: q in old(tables.pages) && old(tables.pages)[q].session == r && old(tables.pages)[q].idx == idx
      ensures p in old(tables.pages) ==> old(tables.pages)[p].session == r && old(tables.pages)[p].idx == idx
      ensures p !in old(tables.pages) ==> p == old(tables.lastPage) + 1
      ensures Valid()
    {
      hide Inv, TablesOk, PageFits;
      var page := Page(r, idx, url, title);
      if q :| q in tables.pages && tables.pages[q].session == r && tables.pages[q].idx == idx {
        p := q;
        PageUpKeeps(Now(), p, url, title);
        var was := tables.pages[p];
        assert page == was.(url := url, title := title);
        tables := PutPage(tables, p, page);
        if triggers && was != page {
          ReplaceDoc(PageKey(page), PageBody(page));
        }
      } else {
        p := tables.lastPage + 1;
        NextPageFits(Now(), page);
        PageInKeeps(Now(), p, page);
        tables := PutPage(tables, p, page);
        if triggers {
          InsertDoc(PageKey(page), PageBody(page));
        }
      }
    }

    /** The update after an insert trigger that found no room. */
    method MarkOverflow(r: int)
      modifies this`st
      ensures Now() == Overflow(old(Now()), r)
    {
      if !st.overflowed {
        st := st.(overflowed := true, overflowSession := r);
      }
    }

    /** SaveCustomEvents inserts or ignores: the same event twice is one row. */
    method SaveCustomEvent(ev: Event) returns (inserted: bool)
      requires Valid() && ev.session in tables.sessions
      modifies this
      ensures inserted <==> forall f :: f in old(tables.events) ==> old(tables.events)[f] != ev
      ensures Now() == if inserted then InsertEvent(old(Now()), old(tables.lastEvent) + 1, ev) else old(Now())
      ensures inserted ==> tables.events == old(tables).events[old(tables.lastEvent) + 1 := ev]
      ensures Valid()
    {
      hide Inv, TablesOk, TopItem, HighestItem, EventFits;
      if f :| f in tables.events && tables.events[f] == ev {
        return false;
      }
      var e := tables.lastEvent + 1;
      assert EventFits(tables, e, ev) by { EventIsNew(tables, ev); }
      EventInKeeps(Now(), e, ev);
      tables := PutEvent(tables, e, ev);
      if triggers {
        if !st.overflowed && HighestItem(docs, ev.session) < ITEM_MAX {
          var k := DocKey(ev.session, TopItem(docs, ev.session) + 1);
          InsertDoc(k, EventBody(ev));
          eventDoc := eventDoc[e := k];
        } else {
          MarkOverflow(ev.session);
        }
      }
      return true;
    }

    method InsertLog(l: int, lg: Log)
      requires Valid() && LogFits(tables, l, lg)
      modifies this
      ensures Now() == SearchIndex.InsertLog(old(Now()), l, lg) && Valid()
      ensures tables == old(tables).(logs := old(tables).logs[l := lg], lastLog := tables.lastLog)
    {
      hide Inv, TablesOk, TopItem, HighestItem, LogFits;
      LogInKeeps(Now(), l, lg);
      tables := PutLog(tables, l, lg);
      if triggers && lg.session.Some? {
        var r := lg.session.value;
        if !st.overflowed && HighestItem(docs, r) < ITEM_MAX {
          var k := DocKey(r, TopItem(docs, r) + 1);
          NewHighest(docs, k, LogBody(lg));
          InsertDoc(k, LogBody(lg));
          clash := clash || l in logDoc;
          logDoc := logDoc[l := DocKey(r, HighestItem(docs, r))];
        } else {
          MarkOverflow(r);
        }
      }
    }

    // ---- Deletion ----

    /** The cascade removes the children, then the session trigger its range. */
    method DeleteSession(r: int)
      requires Valid() && r in tables.sessions
      modifies this
      ensures Now() == SearchIndex.DeleteSession(old(Now()), r) && Valid()
    {
      hide Inv, LogsOf, EventsOf, DropSession, DocsOf, RangeOf;
      SessionOutKeeps(Now(), r);
      var t := tables;
      tables := DropSession(tables, r);
      if triggers {
        var logs := LogsOf(t, r);
        RangeApart(docs, DocsOf(logDoc, logs), r);
        docs := docs - DocsOf(logDoc, logs);
        logDoc := logDoc - logs;
        eventDoc := eventDoc - EventsOf(t, r);
        docs := docs - RangeOf(docs, r);
        if st.phase == Building && st.next < r <= st.cutSessions {
          st := st.(total := if st.total - 1 < st.done then st.done else st.total - 1);
        }
      }
    }

    method DeleteLog(l: int)
      requires Valid() && l in tables.logs
      modifies this
      ensures Now() == SearchIndex.DeleteLog(old(Now()), l) && Valid()
      ensures tables == old(tables).(logs := old(tables).logs - {l})
    {
      hide Inv;
      LogOutKeeps(Now(), l);
      var owned := tables.logs[l].session.Some?;
      tables := DropLog(tables, l);
      if triggers && owned && l in logDoc {
        docs := docs - {logDoc[l]};
        logDoc := logDoc - {l};
      }
    }

    // ---- The setting ----

    method SetEnabled(on: bool)
      requires Valid()
      modifies this
      ensures Now() == Toggle(old(Now()), on) && Valid()
      ensures Now() == old(Now()).(st := old(st).(enabled := on, failed := false))
    {
      hide Inv, TablesOk;
      ToggleKeeps(Now(), on);
      st := st.(enabled := on, failed := false);
    }

    /** True while an index exists, is wanted or is being removed. */
    method DisableForLowDisk() returns (exists_: bool)
      requires Valid()
      modifies this
      ensures exists_ <==> !(old(st.phase) == Off && !old(st.enabled))
      ensures Now() == if exists_ then Toggle(old(Now()), false) else old(Now())
      ensures !exists_ ==> !present && !triggers && docs == map[]
      ensures Valid()
    {
      if st.phase == Off && !st.enabled {
        return false;
      }
      SetEnabled(false);
      return true;
    }

    // ---- The worker ----

    method StartBuild()
      requires Valid() && st.phase == Off
      modifies this
      ensures Now() == SearchIndex.StartBuild(old(Now())) && Valid()
    {
      hide Inv, HighestRow;
      StartBuildKeeps(Now());
      if !present { docs, logDoc := map[], map[]; }
      present, triggers, eventDoc := true, true, map[];
      st := State(st.enabled, Building, false,
                  HighestRow(tables.pages), HighestRow(tables.events), HighestRow(tables.logs), HighestRow(tables.sessions),
                  0, 0, |tables.sessions|, false, 0);
    }

    /** One session of a build batch, statement by statement. */
    method IndexOne(r: int)
      requires r in tables.sessions && TablesOk(tables)
      modifies this`docs, this`logDoc, this`eventDoc, this`clash, this`st
      ensures Now() == IndexSession(old(Now()), r)
    {
      hide TablesOk, StaticDocs, IndexDynamic, OldEvents, OldLogs, Increasing, RowsIn;
      OldRowsIn(tables, st.cutEvents, st.cutLogs, r);
      IndexStatics(r);
      IndexDynamics(r, OldEvents(tables, st.cutEvents, r), OldLogs(tables, st.cutLogs, r));
    }

    /** Tracked events and logs, numbered on from the highest item in use. */
    method IndexDynamics(r: int, evs: seq<int>, lgs: seq<int>)
      requires Increasing(evs) && Increasing(lgs) && RowsIn(evs, tables.events) && RowsIn(lgs, tables.logs)
      modifies this`docs, this`logDoc, this`eventDoc, this`clash, this`st
      ensures Now() == IndexDynamic(old(Now()), r, evs, lgs)
    {
      hide TopItem, AddEvents, AddLogs, Increasing, RowsIn;
      var currentMax := TopItem(docs, r);
      if currentMax + |evs| + |lgs| > ITEM_MAX {
        st := st.(overflowed := true, overflowSession := r);
        return;
      }
      currentMax := IndexEvents(r, currentMax, evs);
      IndexLogs(r, currentMax, lgs);
    }

    method IndexEvents(r: int, top: int, rows: seq<int>) returns (currentMax: int)
      requires Increasing(rows) && RowsIn(rows, tables.events)
      modifies this`docs, this`eventDoc, this`clash
      ensures Now() == AddEvents(old(Now()), r, top, rows) && currentMax == top + |rows|
    {
      hide Numbered, Slots, EventBodies, Increasing, RowsIn;
      currentMax := top;
      if |rows| > 0 {
        clash := clash || Taken(docs, r, top, |rows|);
        docs := docs + Numbered(r, top, EventBodies(tables, rows));
        eventDoc := eventDoc + Slots(r, top, rows);
        currentMax := currentMax + |rows|;
      } else {
        AddNone(Now(), r, top);
      }
    }

    method IndexLogs(r: int, top: int, rows: seq<int>)
      requires Increasing(rows) && RowsIn(rows, tables.logs)
      modifies this`docs, this`logDoc, this`clash
      ensures Now() == AddLogs(old(Now()), r, top, rows)
    {
      hide Numbered, Slots, LogBodies, Increasing, RowsIn;
      if |rows| > 0 {
        clash := clash || Taken(docs, r, top, |rows|) || exists l :: l in rows && l in logDoc;
        docs := docs + Numbered(r, top, LogBodies(tables, rows));
        logDoc := logDoc + Slots(r, top, rows);
      } else {
        AddNone(Now(), r, top);
      }
    }

    /** The session's document and its old pages' documents, deleted and put back. */
    method IndexStatics(r: int)
      requires r in tables.sessions && TablesOk(tables)
      modifies this`docs
      ensures docs == old(docs) + StaticDocs(tables, st.cutPages, r)
    {
      hide TablesOk, PageDocs;
      docs := docs - {DocKey(r, 0)};
      docs := docs[DocKey(r, 0) := SessionBody(tables.sessions[r])];
      docs := docs - PageDocs(tables, st.cutPages, r).Keys;
      docs := docs + PageDocs(tables, st.cutPages, r);
      StaticsRewritten(old(docs), tables, st.cutPages, r);
    }

    /** SELECT rowid FROM sessions past the cursor, up to the cutoff, in order. */
    method NextSessions(size: nat) returns (ids: seq<int>)
      ensures ids == SearchIndex.Batch(Now(), size) && |ids| <= size
    {
      var left := Sorted(RemainingSessions(tables, st.next, st.cutSessions));
      ids := if |left| <= size then left else left[..size];
    }

    method IndexBatch(ids: seq<int>)
      requires TablesOk(tables) && forall r :: r in ids ==> r in tables.sessions
      modifies this`docs, this`logDoc, this`eventDoc, this`clash, this`st
      ensures Now() == IndexSessions(old(Now()), ids)
    {
      hide TablesOk, IndexSessions, IndexSession;
      ghost var before := Now();
      var i := 0;
      BatchStarts(before, ids);
      while i < |ids|
        invariant 0 <= i <= |ids| && tables == before.t
        invariant forall r :: r in ids[..i] ==> r in before.t.sessions
        invariant Now() == IndexSessions(before, ids[..i])
      {
        BatchGrows(before, ids, i);
        IndexOne(ids[i]);
        i := i + 1;
      }
      assert ids[..i] == ids;
    }

    /** One build batch; true when there was nothing left to index. */
    method BuildBatch(size: nat) returns (done: bool)
      requires Valid() && st.phase == Building && size > 0
      modifies this
      ensures Now() == SearchIndex.BuildBatch(old(Now()), size) && Valid()
      ensures done <==> st.phase == Ready
      // a batch counts its sessions as done; at the end all there are
      ensures done ==> st.total == st.done == |tables.sessions|
      ensures !done ==> st.total == old(st.total) && old(st.done) < st.done <= old(st.done) + size
    {
      hide Inv, TablesOk, SearchIndex.Batch, RemainingSessions, IndexSessions, IndexSession;
      ghost var before := Now();
      BuildBatchKeeps(before, size);
      BuildingParts(before);
      BatchMembers(before, size);
      var ids := NextSessions(size);
      if ids == [] {
        st := st.(phase := Ready, total := |tables.sessions|, done := |tables.sessions|);
        return true;
      }
      PhaseStays(before, ids);
      IndexBatch(ids);
      st := st.(next := ids[|ids| - 1], done := st.done + |ids|);
      return false;
    }

    method StartDrop()
      requires Valid() && Live(Now())
      modifies this
      ensures Now() == SearchIndex.StartDrop(old(Now())) && Valid()
    {
      hide Inv;
      StartDropKeeps(Now());
      triggers := false;
      st := st.(phase := Dropping, failed := false);
    }

    /** One drop batch; true when the index is gone. */
    method DropBatch(rows: nat) returns (done: bool)
      requires st.phase == Dropping && rows > 0
      modifies this
      ensures Now() == SearchIndex.DropBatch(old(Now()), rows)
      ensures done <==> st.phase == Off
    {
      hide LowestDocs;
      if !present {
        st := Idle.(enabled := st.enabled);
        return true;
      }
      if docs != map[] {
        docs := docs - LowestDocs(docs, rows);
        return false;
      }
      present, docs, logDoc := false, map[], map[];
      st := Idle.(enabled := st.enabled);
      return true;
    }

    /** One turn of the worker; false when it need not come back unprompted. */
    method RunStep(size: nat, rows: nat, busy: bool) returns (again: bool)
      requires Valid() && size > 0 && rows > 0
      modifies this
      ensures Valid() && TablesOk(old(tables)) && (Now(), again) == SearchIndex.RunStep(old(Now()), old(st.enabled), busy, size, rows)
    {
      hide Inv, TablesOk, SearchIndex.BuildBatch, SearchIndex.DropBatch, SearchIndex.StartBuild, SearchIndex.StartDrop;
      InvTables(Now());
      var enabled := st.enabled;
      if st.failed {
        return false;
      }
      match st.phase
      case Off =>
        if !enabled { return false; }
        StartBuild();
        return true;
      case Building =>
        if !enabled { StartDrop(); return true; }
        if busy { return true; }
        var done := BuildBatch(size);
        return !done;
      case Ready =>
        if enabled { return false; }
        StartDrop();
        return true;
      case Dropping =>
        if busy { return true; }
        DropKeeps(Now(), rows);
        var done := DropBatch(rows);
        if done && enabled { return true; }
        return !done;
    }
  }

  lemma NextPageFits(db: Db, page: Page)
    requires Inv(db) && page.session in db.t.sessions && 0 <= page.idx <= MAX_PAGE_INDEX
    requires forall q :: q in db.t.pages ==> db.t.pages[q].session != page.session || db.t.pages[q].idx != page.idx
    ensures Enabled(db, PageIn(db.t.lastPage + 1, page)) && db.t.lastPage + 1 !in db.t.pages
  {
    InvTables(db);
    hide Inv;
  }

  lemma EventIsNew(t: Store, ev: Event)
    requires ev.session in t.sessions && forall f :: f in t.events ==> t.events[f] != ev
    ensures EventFits(t, t.lastEvent + 1, ev)
  {}

  lemma OldRowsIn(t: Store, cutEvents: int, cutLogs: int, r: int)
    ensures RowsIn(OldEvents(t, cutEvents, r), t.events) && RowsIn(OldLogs(t, cutLogs, r), t.logs)
  {}

  lemma AddNone(db: Db, r: int, top: int)
    ensures AddEvents(db, r, top, []) == db && AddLogs(db, r, top, []) == db
  {
    hide Numbered, Slots, Taken;
    NoneNumbered(r, top);
    assert EventBodies(db.t, []) == [] && LogBodies(db.t, []) == [];
  }

  lemma NoneNumbered(r: int, top: int)
    ensures Numbered(r, top, []) == map[] && Slots(r, top, []) == map[]
    ensures forall docs :: !Taken(docs, r, top, 0)
  {}

  /** Deleting the documents about to be inserted first makes no difference. */
  lemma StaticsRewritten(docs: map<DocKey, Body>, t: Store, cut: int, r: int)
    requires TablesOk(t) && r in t.sessions
    ensures (docs - {DocKey(r, 0)})[DocKey(r, 0) := SessionBody(t.sessions[r])] - PageDocs(t, cut, r).Keys + PageDocs(t, cut, r)
            == docs + StaticDocs(t, cut, r)
  {
    assert DocKey(r, 0) !in PageDocs(t, cut, r);
    hide TablesOk, PageDocs;
    Rewritten(docs, DocKey(r, 0), SessionBody(t.sessions[r]), PageDocs(t, cut, r));
  }

  lemma RangeApart(docs: map<DocKey, Body>, gone: set<DocKey>, r: int)
    ensures docs - gone - RangeOf(docs - gone, r) == docs - gone - RangeOf(docs, r)
  {}

  lemma Rewritten(docs: map<DocKey, Body>, k: DocKey, body: Body, more: map<DocKey, Body>)
    requires k !in more
    ensures (docs - {k})[k := body] - more.Keys + more == docs + more[k := body]
  {}

  lemma PhaseStays(db: Db, ids: seq<int>)
    requires TablesOk(db.t) && forall r :: r in ids ==> r in db.t.sessions
    ensures var st := IndexSessions(db, ids).st;
            st.phase == db.st.phase && st.total == db.st.total && st.done == db.st.done
  {
    hide TablesOk, IndexSessions;
    BatchFrameOf(db, ids);
  }

  lemma BatchStarts(db: Db, ids: seq<int>)
    requires TablesOk(db.t)
    ensures IndexSessions(db, ids[..0]) == db
  {}

  lemma BatchGrows(db: Db, ids: seq<int>, i: nat)
    requires TablesOk(db.t) && (forall r :: r in ids ==> r in db.t.sessions) && i < |ids|
    ensures ids[i] in db.t.sessions && forall r :: r in ids[..i + 1] ==> r in db.t.sessions
    ensures IndexSessions(db, ids[..i]).t == db.t
    ensures IndexSessions(db, ids[..i + 1]) == IndexSession(IndexSessions(db, ids[..i]), ids[i])
  {
    hide TablesOk, IndexSession;
    var r := ids[i];
    assert r in ids;
    forall x | x in ids[..i + 1] ensures x in ids {}
    assert ids[..i + 1][..i] == ids[..i];
  }

  lemma ToggleKeeps(db: Db, on: bool)
    requires Inv(db)
    ensures Inv(Toggle(db, on))
  {
    hide Inv;
    SettingsKeep(db, on, false);
  }

  lemma StartDropKeeps(db: Db)
    requires Inv(db) && Live(db)
    ensures Inv(SearchIndex.StartDrop(db))
  {
    hide TablesOk, LiveOk;
  }

  /** A document put above all others in its range is that range's highest. */
  lemma NewHighest(docs: map<DocKey, Body>, k: DocKey, body: Body)
    requires k.item == TopItem(docs, k.session) + 1
    ensures HighestItem(docs[k := body], k.session) == k.item
  {
    var items := ItemsOf(docs[k := body], k.session);
    assert k in docs[k := body].Keys;
    assert k.item in items;
    forall x | x in items ensures x <= k.item {
      if x != k.item {
        assert x in ItemsOf(docs, k.session);
      }
    }
  }
}
