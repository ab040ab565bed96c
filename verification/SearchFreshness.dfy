/** What the search index asks of rowids: exactly when a number handed out twice
    breaks a build that is under way. */
module SearchFreshness {
  import opened Rows
  import opened Tables
  import opened SearchIndex
  import opened SearchInvariant
  import opened SearchTheorems

  /** The session's old tracked events and logs all get a rowid. */
  predicate Fits(db: Db, r: int)
    requires r in db.t.sessions && TablesOk(db.t)
  {
    TopItem(WithStatic(db, r).docs, r) + |OldEventRows(db, r)| + |OldLogRows(db, r)| <= ITEM_MAX
  }

  /** The build would map a log of this session that is mapped already. */
  predicate Meets(db: Db, r: int) {
    exists l :: l in OldLogRows(db, r) && l in db.logDoc
  }

  // ---- One session ----

  lemma EventsClash(db: Db, r: int, top: int, rows: seq<int>, more: nat)
    requires Increasing(rows) && RowsIn(rows, db.t.events) && top == TopItem(db.docs, r)
    ensures var db' := AddEvents(db, r, top, rows);
            && db'.clash == db.clash && db'.t == db.t && db'.logDoc == db.logDoc
            && !Taken(db'.docs, r, top + |rows|, more)
  {
    TopItemBounds(db.docs, r);
    hide TopItem;
    NumberedAre(r, top, EventBodies(db.t, rows));
  }

  lemma DynamicClash(db: Db, r: int, evs: seq<int>, lgs: seq<int>)
    requires Increasing(evs) && Increasing(lgs) && RowsIn(evs, db.t.events) && RowsIn(lgs, db.t.logs)
    ensures IndexDynamic(db, r, evs, lgs).clash <==>
              db.clash || (TopItem(db.docs, r) + |evs| + |lgs| <= ITEM_MAX && exists l :: l in lgs && l in db.logDoc)
  {
    EventsClash(db, r, TopItem(db.docs, r), evs, |lgs|);
    hide TopItem, AddEvents, Taken, Increasing, RowsIn;
  }

  lemma OldRowsFit(db: Db, r: int)
    ensures Increasing(OldEventRows(db, r)) && RowsIn(OldEventRows(db, r), db.t.events)
    ensures Increasing(OldLogRows(db, r)) && RowsIn(OldLogRows(db, r), db.t.logs)
  {}

  /** Building one session clashes exactly when it fits and meets a log again. */
  lemma SessionClash(db: Db, r: int)
    requires TablesOk(db.t) && r in db.t.sessions
    ensures IndexSession(db, r).clash <==> db.clash || (Fits(db, r) && Meets(db, r))
  {
    OldRowsFit(db, r);
    hide TablesOk, OldEvents, OldLogs, StaticDocs, TopItem, IndexDynamic, RowsIn, Increasing;
    DynamicClash(WithStatic(db, r), r, OldEventRows(db, r), OldLogRows(db, r));
  }

  // ---- A list of sessions ----

  /** The same rowids are in use in this session's range. */
  ghost predicate SameRange(a: map<DocKey, Body>, b: map<DocKey, Body>, s: int) {
    forall k: DocKey :: k.session == s ==> (k in a <==> k in b)
  }

  lemma SameTop(a: map<DocKey, Body>, b: map<DocKey, Body>, s: int)
    requires SameRange(a, b, s)
    ensures TopItem(a, s) == TopItem(b, s)
  {
    assert ItemsOf(a, s) == ItemsOf(b, s);
  }

  lemma StaticRange(db: Db, r: int, s: int)
    requires TablesOk(db.t) && r in db.t.sessions && r != s
    ensures SameRange(db.docs, WithStatic(db, r).docs, s)
  {
    StaticDocsAre(db.t, db.st.cutPages, r);
    hide TablesOk, StaticDocs;
  }

  lemma NumberedRange(docs: map<DocKey, Body>, r: int, top: int, bodies: seq<Body>, s: int)
    requires r != s
    ensures SameRange(docs, docs + Numbered(r, top, bodies), s)
  {
    NumberedAre(r, top, bodies);
    hide Numbered;
  }

  lemma AddsRange(db: Db, r: int, top: int, evs: seq<int>, lgs: seq<int>, s: int)
    requires Increasing(evs) && Increasing(lgs) && RowsIn(evs, db.t.events) && RowsIn(lgs, db.t.logs) && r != s
    ensures SameRange(db.docs, AddLogs(AddEvents(db, r, top, evs), r, top + |evs|, lgs).docs, s)
  {
    hide Numbered, Slots, EventBodies, LogBodies, RowsIn, Increasing, Taken;
    var db1 := AddEvents(db, r, top, evs);
    NumberedRange(db.docs, r, top, EventBodies(db.t, evs), s);
    NumberedRange(db1.docs, r, top + |evs|, LogBodies(db.t, lgs), s);
  }

  lemma DynamicRange(db: Db, r: int, evs: seq<int>, lgs: seq<int>, s: int)
    requires Increasing(evs) && Increasing(lgs) && RowsIn(evs, db.t.events) && RowsIn(lgs, db.t.logs) && r != s
    ensures SameRange(db.docs, IndexDynamic(db, r, evs, lgs).docs, s)
  {
    hide TopItem, AddEvents, AddLogs, RowsIn, Increasing;
    AddsRange(db, r, TopItem(db.docs, r), evs, lgs, s);
  }

  lemma DynamicLogs(db: Db, r: int, evs: seq<int>, lgs: seq<int>, l: int)
    requires Increasing(evs) && Increasing(lgs) && RowsIn(evs, db.t.events) && RowsIn(lgs, db.t.logs) && l !in lgs
    ensures l in IndexDynamic(db, r, evs, lgs).logDoc <==> l in db.logDoc
  {
    var top := TopItem(db.docs, r);
    SlotsAre(r, top + |evs|, lgs);
    hide TopItem, EventBodies, LogBodies, RowsIn, Taken, Slots, Increasing, Numbered;
  }

  lemma OtherRange(db: Db, r: int, s: int)
    requires TablesOk(db.t) && r in db.t.sessions && r != s
    ensures SameRange(db.docs, IndexSession(db, r).docs, s)
    ensures forall l :: l in OldLogRows(db, s) ==> (l in IndexSession(db, r).logDoc <==> l in db.logDoc)
  {
    OldRowsFit(db, r);
    OldRowsAre(db, r);
    OldRowsAre(db, s);
    hide TablesOk, StaticDocs, OldEvents, OldLogs, IndexDynamic, RowsIn, Increasing;
    StaticRange(db, r, s);
    DynamicRange(WithStatic(db, r), r, OldEventRows(db, r), OldLogRows(db, r), s);
    forall l | l in OldLogRows(db, s) ensures l in IndexSession(db, r).logDoc <==> l in db.logDoc {
      DynamicLogs(WithStatic(db, r), r, OldEventRows(db, r), OldLogRows(db, r), l);
    }
  }

  lemma FitsAlike(db: Db, db': Db, s: int)
    requires TablesOk(db.t) && s in db.t.sessions && db'.t == db.t && SameRange(db.docs, db'.docs, s)
    requires db'.st.cutPages == db.st.cutPages && db'.st.cutEvents == db.st.cutEvents && db'.st.cutLogs == db.st.cutLogs
    ensures Fits(db', s) == Fits(db, s)
  {
    hide TablesOk, StaticDocs, TopItem, OldEvents, OldLogs;
    assert SameRange(WithStatic(db, s).docs, WithStatic(db', s).docs, s);
    SameTop(WithStatic(db, s).docs, WithStatic(db', s).docs, s);
  }

  /** Building one session changes nothing of another's range and logs. */
  lemma OtherSession(db: Db, r: int, s: int)
    requires TablesOk(db.t) && r in db.t.sessions && s in db.t.sessions && r != s
    ensures var db' := IndexSession(db, r);
            Fits(db', s) == Fits(db, s) && Meets(db', s) == Meets(db, s)
  {
    hide TablesOk, IndexSession, Fits, OldEvents, OldLogs;
    OtherRange(db, r, s);
    SessionFrameOf(db, r);
    FitsAlike(db, IndexSession(db, r), s);
  }

  lemma {:induction false} OtherSessions(db: Db, ids: seq<int>, s: int)
    requires TablesOk(db.t) && (forall r :: r in ids ==> r in db.t.sessions) && s in db.t.sessions && s !in ids
    ensures var db' := IndexSessions(db, ids);
            Fits(db', s) == Fits(db, s) && Meets(db', s) == Meets(db, s)
    decreases |ids|
  {
    hide TablesOk, IndexSession, Fits, Meets;
    if ids != [] {
      var before, r := ids[..|ids| - 1], ids[|ids| - 1];
      assert r in ids;
      OtherSessions(db, before, s);
      OtherSession(IndexSessions(db, before), r, s);
    }
  }

  /** Building a list of sessions clashes exactly when one of them fits and meets a
      log again. */
  lemma {:induction false} BatchClash(db: Db, ids: seq<int>)
    requires TablesOk(db.t) && Increasing(ids) && forall r :: r in ids ==> r in db.t.sessions
    ensures IndexSessions(db, ids).clash <==> db.clash || exists i :: 0 <= i < |ids| && ids[i] in db.t.sessions && Fits(db, ids[i]) && Meets(db, ids[i])
    decreases |ids|
  {
    hide TablesOk, IndexSession, Fits, Meets;
    if ids != [] {
      var before, r := ids[..|ids| - 1], ids[|ids| - 1];
      assert r in ids;
      forall x | x in before ensures x in ids && x != r {
        var i :| 0 <= i < |before| && before[i] == x;
        assert ids[i] == x;
      }
      BatchClash(db, before);
      OtherSessions(db, before, r);
      SessionClash(IndexSessions(db, before), r);
      if i :| 0 <= i < |ids| && ids[i] in db.t.sessions && Fits(db, ids[i]) && Meets(db, ids[i]) {
        assert i < |before| ==> before[i] == ids[i];
      }
    }
  }

  // ---- A log number handed out twice ----

  /** Sessions the build has still to come to, in its order. */
  ghost predicate Ahead(db: Db, ids: seq<int>) {
    Increasing(ids) && forall r :: r in ids ==> r in RemainingSessions(db.t, db.st.next, db.st.cutSessions)
  }

  lemma LogPut(db: Db, l: int, lg: Log, r: int)
    requires db.triggers && l !in db.logDoc && lg.session == Some(r)
    ensures var db1 := InsertLog(db, l, lg);
            && db1.clash == db.clash && db1.t == PutLog(db.t, l, lg)
            && db1.st == db.st.(overflowed := db1.st.overflowed, overflowSession := db1.st.overflowSession)
            && (l in db1.logDoc <==> HasRoom(db, r))
            && (forall m :: m != l ==> (m in db1.logDoc <==> m in db.logDoc))
  {
    hide LogBody, PutLog, HasRoom, TopItem;
    TopIsFree(db.docs, r);
    var db1 := InsertLog(db, l, lg);
    if HasRoom(db, r) {
      assert db1.logDoc == db.logDoc[l := DocKey(r, TopItem(db.docs, r) + 1)];
    } else {
      assert db1 == Overflow(db.(t := PutLog(db.t, l, lg)), r);
    }
  }

  lemma TopIsFree(docs: map<DocKey, Body>, r: int)
    ensures DocKey(r, TopItem(docs, r) + 1) !in docs
  {
    TopItemBounds(docs, r);
  }

  lemma LogRowOk(t: Store, l: int, lg: Log, r: int)
    requires TablesOk(t) && l > 0 && l !in t.logs && lg.session == Some(r) && r in t.sessions
    ensures TablesOk(PutLog(t, l, lg))
  {}

  lemma LogKept(db: Db, l: int, lg: Log, r: int)
    requires Inv(db) && db.st.phase == Building
    requires l > 0 && l !in db.t.logs && lg.session == Some(r) && r in db.t.sessions
    ensures var db1 := InsertLog(db, l, lg);
            && TablesOk(db1.t) && !db1.clash && db1.t.sessions == db.t.sessions
            && db1.st == db.st.(overflowed := db1.st.overflowed, overflowSession := db1.st.overflowSession)
            && (l in db1.logDoc <==> HasRoom(db, r))
            && (forall m :: m != l ==> (m in db1.logDoc <==> m in db.logDoc))
  {
    assert LogsMapped(db) && db.triggers && !db.clash;
    InvTables(db);
    assert l !in db.logDoc;
    hide Inv, TablesOk, InsertLog, HasRoom;
    LogRowOk(db.t, l, lg, r);
    LogPut(db, l, lg, r);
  }

  /** An old log of a session ahead is not mapped yet. */
  lemma NotMappedYet(db: Db, m: int, s: int)
    requires NotEarly(db) && db.st.phase == Building && db.st.next < s
    requires m in db.t.logs && db.t.logs[m].session == Some(s) && m <= db.st.cutLogs
    ensures m !in db.logDoc
  {}

  /** Only the new log can be met again. */
  lemma OnlyNewLogMeets(db: Db, l: int, lg: Log, r: int, s: int)
    requires Inv(db) && db.st.phase == Building
    requires l > 0 && l !in db.t.logs && lg.session == Some(r) && r in db.t.sessions
    requires s in RemainingSessions(db.t, db.st.next, db.st.cutSessions)
    ensures var db1 := InsertLog(db, l, lg);
            Meets(db1, s) <==> s == r && l <= db.st.cutLogs && HasRoom(db, r)
  {
    hide Inv, InsertLog, HasRoom, OldLogs, NotEarly;
    LogKept(db, l, lg, r);
    LiveMaps(db);
    var db1 := InsertLog(db, l, lg);
    OldLogsOf(db1, s);
    forall m | m in OldLogRows(db1, s) && m != l ensures m !in db1.logDoc {
      NotMappedYet(db, m, s);
    }
  }

  lemma OldLogsOf(db: Db, s: int)
    ensures forall l :: l in OldLogRows(db, s) <==> l in db.t.logs && db.t.logs[l].session == Some(s) && l <= db.st.cutLogs
  {}

  /** While a build runs, a log inserted under a number its table is free to give
      again breaks the build of the sessions ahead exactly when the number is at or
      below the cutoff, its session is among them and gets all its rows in, and
      the trigger had indexed the log. */
  lemma ReusedLogClashes(db: Db, l: int, lg: Log, r: int, ids: seq<int>)
    requires Inv(db) && db.st.phase == Building && Ahead(db, ids)
    requires l > 0 && l !in db.t.logs && lg.session == Some(r) && r in db.t.sessions
    ensures var db1 := InsertLog(db, l, lg);
            && TablesOk(db1.t) && r in db1.t.sessions && (forall s :: s in ids ==> s in db1.t.sessions)
            && (IndexSessions(db1, ids).clash <==> r in ids && l <= db.st.cutLogs && HasRoom(db, r) && Fits(db1, r))
  {
    LogKept(db, l, lg, r);
    var db1 := InsertLog(db, l, lg);
    hide Inv, TablesOk, InsertLog, HasRoom, Fits, Meets, IndexSessions;
    forall s | s in ids ensures s in db1.t.sessions && (Meets(db1, s) <==> s == r && l <= db.st.cutLogs && HasRoom(db, r)) {
      OnlyNewLogMeets(db, l, lg, r, s);
    }
    BatchClash(db1, ids);
    if r in ids {
      var i :| 0 <= i < |ids| && ids[i] == r;
    }
    forall i | 0 <= i < |ids| ensures ids[i] in ids {}
  }

  /** All the sessions ahead are those in (next, cutoff]. */
  lemma AllAhead(db: Db, r: int)
    requires r in db.t.sessions
    ensures var ids := Sorted(RemainingSessions(db.t, db.st.next, db.st.cutSessions));
            Ahead(db, ids) && (r in ids <==> db.st.next < r <= db.st.cutSessions)
  {}

  // ---- A session rowid handed out twice ----

  lemma Progress(db: Db)
    requires Inv(db)
    ensures ProgressOk(db)
  {
    hide TablesOk, LiveOk, ProgressOk;
  }

  /** A session inserted while a build runs keeps total = done + remaining exactly
      when its rowid is not one the cursor has still to come to: deleting the old
      session lowered the total, and inserting the new one adds nothing. */
  lemma ReusedSessionMiscounts(db: Db, r: int, s: Session)
    requires Inv(db) && db.st.phase == Building && r !in db.t.sessions
    ensures var db1 := InsertSession(db, r, s);
            db1.st.total == db1.st.done + |RemainingSessions(db1.t, db1.st.next, db1.st.cutSessions)| <==>
              !(db.st.next < r <= db.st.cutSessions)
  {
    hide Inv, RemainingSessions;
    Progress(db);
    RemainsOneMore(db.t, r, s, db.st.next, db.st.cutSessions);
  }

  lemma RemainsOneMore(t: Store, r: int, s: Session, next: int, cut: int)
    requires r !in t.sessions
    ensures |RemainingSessions(PutSession(t, r, s), next, cut)| == |RemainingSessions(t, next, cut)| + if next < r <= cut then 1 else 0
  {
    var before, after := RemainingSessions(t, next, cut), RemainingSessions(PutSession(t, r, s), next, cut);
    if next < r <= cut {
      assert after == before + {r};
    } else {
      assert after == before;
    }
  }
}
