/** The search index invariant holds in every state any interleaving of ingest,
    deletion, toggles and worker steps can reach. */
module SearchInvariant {
  import opened Rows
  import opened Tables
  import opened SearchIndex

  lemma TopItemBounds(docs: map<DocKey, Body>, r: int)
    ensures TopItem(docs, r) >= ITEM_FIRST_DYNAMIC - 1
    ensures forall k :: k in docs && k.session == r ==> k.item <= TopItem(docs, r)
    ensures HighestItem(docs, r) < ITEM_MAX ==> TopItem(docs, r) < ITEM_MAX
  {
    forall k | k in docs && k.session == r ensures k.item in ItemsOf(docs, r) {}
  }

  /** A document whose text and supporting rows are untouched stays sound. */
  lemma DocOkCarries(db: Db, db': Db, k: DocKey)
    requires k in db.docs && k in db'.docs && db.docs[k] == db'.docs[k] && DocOk(db, k)
    requires k.session in db'.t.sessions
    requires k.item == 0 ==> SessionBody(db'.t.sessions[k.session]) == SessionBody(db.t.sessions[k.session])
    requires forall p :: p in db.t.pages && PageKey(db.t.pages[p]) == k ==> p in db'.t.pages && db'.t.pages[p] == db.t.pages[p]
    requires forall e :: e in db.eventDoc && db.eventDoc[e] == k ==> e in db'.eventDoc && db'.eventDoc[e] == k
    requires forall l :: l in db.logDoc && db.logDoc[l] == k ==> l in db'.logDoc && db'.logDoc[l] == k
    ensures DocOk(db', k)
  {
    if 1 <= k.item < ITEM_FIRST_DYNAMIC {
      var p :| p in db.t.pages && PageKey(db.t.pages[p]) == k && db.docs[k] == PageBody(db.t.pages[p]);
      assert p in db'.t.pages && PageKey(db'.t.pages[p]) == k;
    } else if k.item >= ITEM_FIRST_DYNAMIC {
      if e :| e in db.eventDoc && db.eventDoc[e] == k {
        assert e in db'.eventDoc && db'.eventDoc[e] == k;
      } else {
        var l :| l in db.logDoc && db.logDoc[l] == k;
        assert l in db'.logDoc && db'.logDoc[l] == k;
      }
    }
  }

  lemma SoundCarries(db: Db, db': Db)
    requires Sound(db)
    requires db'.docs == db.docs && db'.eventDoc == db.eventDoc && db'.logDoc == db.logDoc
    requires db'.t.sessions == db.t.sessions && db'.t.pages == db.t.pages
    ensures Sound(db')
  {
    forall k | k in db'.docs ensures DocOk(db', k) { assert DocOk(db, k); DocOkCarries(db, db', k); }
  }

  // ---- Sessions ----

  lemma SessionSound(db: Db, db': Db, r: int, s: Session)
    requires Sound(db)
    requires db' == db.(t := PutSession(db.t, r, s), docs := db.docs[DocKey(r, 0) := SessionBody(s)])
    ensures Sound(db')
  {
    forall k | k in db'.docs ensures DocOk(db', k) {
      if k != DocKey(r, 0) { assert DocOk(db, k); DocOkCarries(db, db', k); }
    }
  }

  lemma SessionMapped(db: Db, db': Db, r: int, s: Session)
    requires EventsMapped(db) && LogsMapped(db)
    requires db' == db.(t := PutSession(db.t, r, s), docs := db.docs[DocKey(r, 0) := SessionBody(s)])
    ensures EventsMapped(db') && LogsMapped(db')
  {}

  lemma SessionComplete(db: Db, db': Db, r: int, s: Session)
    requires Complete(db) && NotEarly(db) && CutoffsOk(db)
    requires db' == db.(t := PutSession(db.t, r, s), docs := db.docs[DocKey(r, 0) := SessionBody(s)])
    ensures Complete(db') && NotEarly(db') && CutoffsOk(db')
  {}

  lemma SessionLive(db: Db, db': Db, r: int, s: Session)
    requires LiveOk(db)
    requires db' == db.(t := PutSession(db.t, r, s), docs := db.docs[DocKey(r, 0) := SessionBody(s)])
    ensures LiveOk(db')
  {
    SessionSound(db, db', r, s);
    SessionMapped(db, db', r, s);
    SessionComplete(db, db', r, s);
  }

  // ---- Pages ----

  lemma PageSound(db: Db, db': Db, p: int, page: Page)
    requires Sound(db) && PageFits(db.t, p, page)
    requires p in db.t.pages ==> PageKey(db.t.pages[p]) == PageKey(page)
    requires db' == db.(t := PutPage(db.t, p, page), docs := db.docs[PageKey(page) := PageBody(page)])
    ensures Sound(db')
  {
    forall k | k in db'.docs ensures DocOk(db', k) {
      if k != PageKey(page) { assert DocOk(db, k); DocOkCarries(db, db', k); }
      else { assert p in db'.t.pages && PageKey(db'.t.pages[p]) == k; }
    }
  }

  lemma PageMapped(db: Db, db': Db, p: int, page: Page)
    requires EventsMapped(db) && LogsMapped(db) && PageFits(db.t, p, page)
    requires db' == db.(t := PutPage(db.t, p, page), docs := db.docs[PageKey(page) := PageBody(page)])
    ensures EventsMapped(db') && LogsMapped(db')
  {}

  lemma PageComplete(db: Db, db': Db, p: int, page: Page)
    requires Complete(db) && NotEarly(db) && CutoffsOk(db) && PageFits(db.t, p, page)
    requires p in db.t.pages ==> PageKey(db.t.pages[p]) == PageKey(page)
    requires db' == db.(t := PutPage(db.t, p, page), docs := db.docs[PageKey(page) := PageBody(page)])
    ensures Complete(db') && NotEarly(db') && CutoffsOk(db')
  {}

  lemma PageLive(db: Db, db': Db, p: int, page: Page)
    requires LiveOk(db) && PageFits(db.t, p, page)
    requires p in db.t.pages ==> PageKey(db.t.pages[p]) == PageKey(page)
    requires db' == db.(t := PutPage(db.t, p, page), docs := db.docs[PageKey(page) := PageBody(page)])
    ensures LiveOk(db')
  {
    PageSound(db, db', p, page);
    PageMapped(db, db', p, page);
    PageComplete(db, db', p, page);
  }

  // ---- Tracked events ----

  lemma EventSound(db: Db, db': Db, e: int, ev: Event, k: DocKey)
    requires Sound(db) && ev.session in db.t.sessions && e !in db.eventDoc
    requires k !in db.docs && k.session == ev.session && ITEM_FIRST_DYNAMIC <= k.item <= ITEM_MAX
    requires db' == db.(t := PutEvent(db.t, e, ev), docs := db.docs[k := EventBody(ev)], eventDoc := db.eventDoc[e := k])
    ensures Sound(db')
  {
    forall j | j in db'.docs ensures DocOk(db', j) {
      if j != k { assert DocOk(db, j); DocOkCarries(db, db', j); }
      else { assert e in db'.eventDoc && db'.eventDoc[e] == j; }
    }
  }

  lemma EventMapped(db: Db, db': Db, e: int, ev: Event, k: DocKey)
    requires EventsMapped(db) && LogsMapped(db) && e !in db.eventDoc
    requires k !in db.docs && k.session == ev.session && ITEM_FIRST_DYNAMIC <= k.item <= ITEM_MAX
    requires db' == db.(t := PutEvent(db.t, e, ev), docs := db.docs[k := EventBody(ev)], eventDoc := db.eventDoc[e := k])
    ensures EventsMapped(db') && LogsMapped(db')
  {}

  lemma EventComplete(db: Db, db': Db, e: int, ev: Event, k: DocKey)
    requires Complete(db) && NotEarly(db) && CutoffsOk(db) && EventFits(db.t, e, ev)
    requires db' == db.(t := PutEvent(db.t, e, ev), docs := db.docs[k := EventBody(ev)], eventDoc := db.eventDoc[e := k])
    ensures Complete(db') && NotEarly(db') && CutoffsOk(db')
  {}

  lemma EventLive(db: Db, e: int, ev: Event)
    requires LiveOk(db) && db.triggers && EventFits(db.t, e, ev) && EventsWithin(db)
    ensures LiveOk(InsertEvent(db, e, ev))
    ensures InsertEvent(db, e, ev).clash == db.clash
  {
    if HasRoom(db, ev.session) {
      EventIndexed(db, e, ev);
    } else {
      hide LiveOk;
      EventUnindexed(db, InsertEvent(db, e, ev), e, ev);
    }
  }

  lemma EventIndexed(db: Db, e: int, ev: Event)
    requires LiveOk(db) && db.triggers && EventFits(db.t, e, ev) && EventsWithin(db) && HasRoom(db, ev.session)
    ensures LiveOk(InsertEvent(db, e, ev))
    ensures InsertEvent(db, e, ev).clash == db.clash
  {
    hide Sound, EventsMapped, LogsMapped, Complete, NotEarly, CutoffsOk;
    var db' := InsertEvent(db, e, ev);
    TopItemBounds(db.docs, ev.session);
    var k := DocKey(ev.session, TopItem(db.docs, ev.session) + 1);
    assert k !in db.docs;
    EventSound(db, db', e, ev, k);
    EventMapped(db, db', e, ev, k);
    EventComplete(db, db', e, ev, k);
  }

  /** No history entry is for a rowid not yet handed out. */
  ghost predicate EventsWithin(db: Db) {
    forall e :: e in db.eventDoc ==> e <= db.t.lastEvent
  }

  ghost predicate LogsWithin(db: Db) {
    forall l :: l in db.logDoc ==> l <= db.t.lastLog
  }

  lemma MappedWithin(db: Db)
    requires TablesOk(db.t) && EventsMapped(db) && LogsMapped(db)
    ensures EventsWithin(db) && LogsWithin(db)
  {}

  lemma LiveWithin(db: Db)
    requires TablesOk(db.t) && LiveOk(db)
    ensures EventsWithin(db) && LogsWithin(db)
  {
    MappedWithin(db);
  }

  lemma EventUnindexed(db: Db, db': Db, e: int, ev: Event)
    requires LiveOk(db) && EventFits(db.t, e, ev) && EventsWithin(db)
    requires db'.st.overflowed && db' == db.(t := PutEvent(db.t, e, ev), st := db'.st)
    requires db'.st == db.st.(overflowed := true, overflowSession := db'.st.overflowSession)
    ensures LiveOk(db')
  {
    SoundCarries(db, db');
    EventUnindexedMapped(db, db', e, ev);
    EventUnindexedComplete(db, db', e, ev);
  }

  lemma EventUnindexedMapped(db: Db, db': Db, e: int, ev: Event)
    requires EventsMapped(db) && LogsMapped(db) && EventFits(db.t, e, ev) && EventsWithin(db)
    requires db' == db.(t := PutEvent(db.t, e, ev), st := db'.st)
    ensures EventsMapped(db') && LogsMapped(db')
  {}

  lemma EventUnindexedComplete(db: Db, db': Db, e: int, ev: Event)
    requires Complete(db) && NotEarly(db) && CutoffsOk(db) && EventFits(db.t, e, ev) && EventsWithin(db)
    requires db'.st.overflowed && db' == db.(t := PutEvent(db.t, e, ev), st := db'.st)
    requires db'.st == db.st.(overflowed := true, overflowSession := db'.st.overflowSession)
    ensures Complete(db') && NotEarly(db') && CutoffsOk(db')
  {}

  // ---- Logs ----

  lemma LogSound(db: Db, db': Db, l: int, lg: Log, k: DocKey)
    requires Sound(db) && lg.session == Some(k.session) && k.session in db.t.sessions && l !in db.logDoc
    requires k !in db.docs && ITEM_FIRST_DYNAMIC <= k.item <= ITEM_MAX
    requires db' == db.(t := PutLog(db.t, l, lg), docs := db.docs[k := LogBody(lg)], logDoc := db.logDoc[l := k])
    ensures Sound(db')
  {
    forall j | j in db'.docs ensures DocOk(db', j) {
      if j != k { assert DocOk(db, j); DocOkCarries(db, db', j); }
      else { assert l in db'.logDoc && db'.logDoc[l] == j; }
    }
  }

  lemma LogMapped(db: Db, db': Db, l: int, lg: Log, k: DocKey)
    requires EventsMapped(db) && LogsMapped(db) && lg.session == Some(k.session) && l !in db.logDoc
    requires k !in db.docs && ITEM_FIRST_DYNAMIC <= k.item <= ITEM_MAX
    requires db' == db.(t := PutLog(db.t, l, lg), docs := db.docs[k := LogBody(lg)], logDoc := db.logDoc[l := k])
    ensures EventsMapped(db') && LogsMapped(db')
  {}

  lemma LogComplete(db: Db, db': Db, l: int, lg: Log, k: DocKey)
    requires Complete(db) && NotEarly(db) && CutoffsOk(db) && LogFits(db.t, l, lg) && lg.session == Some(k.session)
    requires db' == db.(t := PutLog(db.t, l, lg), docs := db.docs[k := LogBody(lg)], logDoc := db.logDoc[l := k])
    ensures Complete(db') && NotEarly(db') && CutoffsOk(db')
  {}

  lemma LogUnindexed(db: Db, db': Db, l: int, lg: Log)
    requires LiveOk(db) && LogFits(db.t, l, lg) && LogsWithin(db)
    requires lg.session.None? || db'.st.overflowed
    requires db' == db.(t := PutLog(db.t, l, lg), st := db'.st)
    requires db'.st == db.st.(overflowed := db'.st.overflowed, overflowSession := db'.st.overflowSession)
    requires db.st.overflowed ==> db'.st.overflowed
    ensures LiveOk(db')
  {
    SoundCarries(db, db');
    LogUnindexedMapped(db, db', l, lg);
    LogUnindexedComplete(db, db', l, lg);
  }

  lemma LogUnindexedMapped(db: Db, db': Db, l: int, lg: Log)
    requires EventsMapped(db) && LogsMapped(db) && LogFits(db.t, l, lg) && LogsWithin(db)
    requires db' == db.(t := PutLog(db.t, l, lg), st := db'.st)
    ensures EventsMapped(db') && LogsMapped(db')
  {}

  lemma LogUnindexedComplete(db: Db, db': Db, l: int, lg: Log)
    requires Complete(db) && NotEarly(db) && CutoffsOk(db) && LogFits(db.t, l, lg) && LogsWithin(db)
    requires lg.session.None? || db'.st.overflowed
    requires db' == db.(t := PutLog(db.t, l, lg), st := db'.st)
    requires db'.st == db.st.(overflowed := db'.st.overflowed, overflowSession := db'.st.overflowSession)
    requires db.st.overflowed ==> db'.st.overflowed
    ensures Complete(db') && NotEarly(db') && CutoffsOk(db')
  {}

  lemma LogLive(db: Db, l: int, lg: Log)
    requires LiveOk(db) && db.triggers && LogFits(db.t, l, lg) && LogsWithin(db)
    ensures LiveOk(InsertLog(db, l, lg))
    ensures InsertLog(db, l, lg).clash == db.clash
  {
    if lg.session.Some? && HasRoom(db, lg.session.value) {
      LogIndexed(db, l, lg);
    } else {
      LogUnindexed(db, InsertLog(db, l, lg), l, lg);
    }
  }

  lemma LogIndexed(db: Db, l: int, lg: Log)
    requires LiveOk(db) && db.triggers && LogFits(db.t, l, lg) && LogsWithin(db)
    requires lg.session.Some? && HasRoom(db, lg.session.value)
    ensures LiveOk(InsertLog(db, l, lg))
    ensures InsertLog(db, l, lg).clash == db.clash
  {
    hide LogBody, LogFits, LogsWithin, EventsWithin;
    LogSlot(db, l, lg);
    hide HasRoom, TopItem;
    var db', k := InsertLog(db, l, lg), DocKey(lg.session.value, TopItem(db.docs, lg.session.value) + 1);
    LogSound(db, db', l, lg, k);
    LogMapped(db, db', l, lg, k);
    LogComplete(db, db', l, lg, k);
  }

  lemma LogSlot(db: Db, l: int, lg: Log)
    requires lg.session.Some? && db.triggers && HasRoom(db, lg.session.value)
    requires LogsMapped(db) && LogsWithin(db) && LogFits(db.t, l, lg)
    ensures var k := DocKey(lg.session.value, TopItem(db.docs, lg.session.value) + 1);
            var db' := InsertLog(db, l, lg);
            && k !in db.docs && ITEM_FIRST_DYNAMIC <= k.item <= ITEM_MAX && l !in db.logDoc && k.session in db.t.sessions
            && db' == db.(t := PutLog(db.t, l, lg), docs := db.docs[k := LogBody(lg)], logDoc := db.logDoc[l := k])
  {
    TopItemBounds(db.docs, lg.session.value);
  }

  // ---- Deletion ----

  /** Deleting a log removes that log's document and mapping and nothing else. */
  lemma LogOutSound(db: Db, db': Db, l: int)
    requires Sound(db) && LogsMapped(db)
    requires l in db.logDoc
    requires db' == db.(t := DropLog(db.t, l), docs := db.docs - {db.logDoc[l]}, logDoc := db.logDoc - {l})
    ensures Sound(db')
  {
    forall k | k in db'.docs ensures DocOk(db', k) {
      assert DocOk(db, k);
      DocOkCarries(db, db', k);
    }
  }

  lemma LogOutMapped(db: Db, db': Db, l: int)
    requires EventsMapped(db) && LogsMapped(db) && l in db.logDoc
    requires db' == db.(t := DropLog(db.t, l), docs := db.docs - {db.logDoc[l]}, logDoc := db.logDoc - {l})
    ensures EventsMapped(db') && LogsMapped(db')
  {}

  lemma LogOutComplete(db: Db, db': Db, l: int)
    requires TablesOk(db.t) && LogsMapped(db) && Complete(db) && NotEarly(db) && CutoffsOk(db) && l in db.logDoc
    requires db' == db.(t := DropLog(db.t, l), docs := db.docs - {db.logDoc[l]}, logDoc := db.logDoc - {l})
    ensures Complete(db') && NotEarly(db') && CutoffsOk(db')
  {
    LogOutIndexed(db, db', l);
    hide Complete, LogsMapped, TablesOk;
  }

  lemma LogOutIndexed(db: Db, db': Db, l: int)
    requires TablesOk(db.t) && LogsMapped(db) && Complete(db) && l in db.logDoc
    requires db' == db.(t := DropLog(db.t, l), docs := db.docs - {db.logDoc[l]}, logDoc := db.logDoc - {l})
    ensures Complete(db')
  {
    assert db.logDoc[l].item >= ITEM_FIRST_DYNAMIC;
  }

  lemma LogOutLive(db: Db, l: int)
    requires LiveOk(db) && db.triggers && TablesOk(db.t) && l in db.t.logs
    ensures LiveOk(DeleteLog(db, l))
  {
    var db' := DeleteLog(db, l);
    if l in db.logDoc {
      assert db.t.logs[l].session.Some?;
      LogOutSound(db, db', l);
      LogOutMapped(db, db', l);
      LogOutComplete(db, db', l);
    } else {
      LogOutUnindexed(db, db', l);
    }
  }

  lemma LogOutUnindexed(db: Db, db': Db, l: int)
    requires LiveOk(db) && l !in db.logDoc && db' == db.(t := DropLog(db.t, l))
    ensures LiveOk(db')
  {
    SoundCarries(db, db');
    LogOutUnindexedMapped(db, db', l);
    LogOutUnindexedComplete(db, db', l);
  }

  lemma LogOutUnindexedMapped(db: Db, db': Db, l: int)
    requires EventsMapped(db) && LogsMapped(db) && l !in db.logDoc && db' == db.(t := DropLog(db.t, l))
    ensures EventsMapped(db') && LogsMapped(db')
  {}

  lemma LogOutUnindexedComplete(db: Db, db': Db, l: int)
    requires Complete(db) && NotEarly(db) && CutoffsOk(db) && l !in db.logDoc && db' == db.(t := DropLog(db.t, l))
    ensures Complete(db') && NotEarly(db') && CutoffsOk(db')
  {}

  /** A session's documents, and its logs' mappings, go with it; all others stay. */
  ghost predicate SessionGone(db: Db, db': Db, r: int) {
    && db'.t == DropSession(db.t, r)
    && (forall k :: k in db'.docs <==> k in db.docs && k.session != r)
    && (forall k :: k in db'.docs ==> db'.docs[k] == db.docs[k])
    && (forall l :: l in db'.logDoc <==> l in db.logDoc && l !in LogsOf(db.t, r))
    && (forall l :: l in db'.logDoc ==> db'.logDoc[l] == db.logDoc[l])
    && (forall e :: e in db'.eventDoc <==> e in db.eventDoc && e !in EventsOf(db.t, r))
    && (forall e :: e in db'.eventDoc ==> db'.eventDoc[e] == db.eventDoc[e])
    && db'.st == db.st.(total := db'.st.total)
  }

  lemma DeleteRemovesRange(db: Db, r: int)
    requires LogsMapped(db) && db.triggers
    ensures SessionGone(db, DeleteSession(db, r), r)
    ensures DeleteSession(db, r).clash == db.clash
  {}

  lemma SessionOutSound(db: Db, db': Db, r: int)
    requires Sound(db) && EventsMapped(db) && LogsMapped(db) && SessionGone(db, db', r)
    ensures Sound(db')
  {
    hide DocOk;
    SessionOutRows(db, db', r);
    hide EventsMapped, LogsMapped, SessionGone;
    forall k | k in db'.docs ensures DocOk(db', k) {
      assert DocOk(db, k);
      DocSession(db, k);
      DocOkCarries(db, db', k);
    }
  }

  lemma DocSession(db: Db, k: DocKey)
    requires k in db.docs && DocOk(db, k)
    ensures k.session in db.t.sessions
  {}

  /** The documents left are of other sessions, whose rows all stay. */
  lemma SessionOutRows(db: Db, db': Db, r: int)
    requires EventsMapped(db) && LogsMapped(db) && SessionGone(db, db', r)
    ensures forall k :: k in db'.docs ==> k in db.docs && db'.docs[k] == db.docs[k] && k.session != r
    ensures forall x :: x in db.t.sessions && x != r ==> x in db'.t.sessions && db'.t.sessions[x] == db.t.sessions[x]
    ensures forall p :: p in db.t.pages && db.t.pages[p].session != r ==> p in db'.t.pages && db'.t.pages[p] == db.t.pages[p]
    ensures forall e :: e in db.eventDoc && db.eventDoc[e].session != r ==> e in db'.eventDoc && db'.eventDoc[e] == db.eventDoc[e]
    ensures forall l :: l in db.logDoc && db.logDoc[l].session != r ==> l in db'.logDoc && db'.logDoc[l] == db.logDoc[l]
  {}

  lemma SessionOutMapped(db: Db, db': Db, r: int)
    requires EventsMapped(db) && LogsMapped(db) && SessionGone(db, db', r)
    ensures EventsMapped(db') && LogsMapped(db')
  {}

  lemma SessionOutComplete(db: Db, db': Db, r: int)
    requires TablesOk(db.t) && Complete(db) && SessionGone(db, db', r)
    ensures Complete(db')
  {
    SessionOutTables(db, db', r);
    hide TablesOk, SessionGone;
  }

  lemma SessionOutTables(db: Db, db': Db, r: int)
    requires SessionGone(db, db', r)
    ensures db'.st == db.st.(total := db'.st.total)
    ensures forall k :: k in db.docs && k.session != r ==> k in db'.docs
    ensures forall x :: x in db'.t.sessions ==> x in db.t.sessions && x != r
    ensures forall p :: p in db'.t.pages ==> p in db.t.pages && db'.t.pages[p] == db.t.pages[p] && db.t.pages[p].session != r
    ensures forall e :: e in db'.t.events ==> e in db.t.events && db'.t.events[e] == db.t.events[e] && e !in EventsOf(db.t, r)
    ensures forall l :: l in db'.t.logs ==> l in db.t.logs && db'.t.logs[l] == db.t.logs[l] && l !in LogsOf(db.t, r)
    ensures forall e :: e in db.eventDoc && e !in EventsOf(db.t, r) ==> e in db'.eventDoc
    ensures forall l :: l in db.logDoc && l !in LogsOf(db.t, r) ==> l in db'.logDoc
  {
    assert forall p :: p in db'.t.pages ==> p in db.t.pages && p !in PagesOf(db.t, r);
  }

  lemma SessionOutNotEarly(db: Db, db': Db, r: int)
    requires NotEarly(db) && CutoffsOk(db) && SessionGone(db, db', r)
    ensures NotEarly(db') && CutoffsOk(db')
  {
    assert forall p :: p in db'.t.pages ==> p in db.t.pages && p !in PagesOf(db.t, r);
    assert forall e :: e in db'.t.events ==> e in db.t.events && e !in EventsOf(db.t, r);
    assert forall l :: l in db'.t.logs ==> l in db.t.logs && l !in LogsOf(db.t, r);
  }

  lemma SessionOutLive(db: Db, r: int)
    requires LiveOk(db) && TablesOk(db.t) && db.triggers
    ensures LiveOk(DeleteSession(db, r))
  {
    var db' := DeleteSession(db, r);
    DeleteRemovesRange(db, r);
    SessionOutSound(db, db', r);
    SessionOutMapped(db, db', r);
    SessionOutComplete(db, db', r);
    SessionOutNotEarly(db, db', r);
  }

  // ---- One session of a build batch ----

  lemma PageDocsAre(t: Store, cut: int, r: int)
    requires TablesOk(t)
    ensures forall k :: k in PageDocs(t, cut, r) <==> exists p :: p in OldPages(t, cut, r) && PageKey(t.pages[p]) == k
    ensures forall p :: p in OldPages(t, cut, r) ==>
              && PageKey(t.pages[p]) in PageDocs(t, cut, r)
              && PageDocs(t, cut, r)[PageKey(t.pages[p])] == PageBody(t.pages[p])
              && PageKey(t.pages[p]) != DocKey(r, 0)
  {}

  lemma StaticDocsAre(t: Store, cut: int, r: int)
    requires TablesOk(t) && r in t.sessions
    ensures forall k :: k in StaticDocs(t, cut, r) <==>
              k == DocKey(r, 0) || exists p :: p in OldPages(t, cut, r) && PageKey(t.pages[p]) == k
    ensures StaticDocs(t, cut, r)[DocKey(r, 0)] == SessionBody(t.sessions[r])
    ensures forall p :: p in OldPages(t, cut, r) ==>
              PageKey(t.pages[p]) in StaticDocs(t, cut, r)
              && StaticDocs(t, cut, r)[PageKey(t.pages[p])] == PageBody(t.pages[p])
  {
    hide TablesOk, PageDocs, OldPages;
    PageDocsAre(t, cut, r);
  }

  lemma StaticSound(db: Db, db': Db, r: int)
    requires TablesOk(db.t) && Sound(db) && r in db.t.sessions
    requires db' == db.(docs := db.docs + StaticDocs(db.t, db.st.cutPages, r))
    ensures Sound(db')
  {
    StaticDocsAre(db.t, db.st.cutPages, r);
    forall k | k in db'.docs ensures DocOk(db', k) {
      if k == DocKey(r, 0) {
      } else if p :| p in OldPages(db.t, db.st.cutPages, r) && PageKey(db.t.pages[p]) == k {
        assert p in db'.t.pages && PageKey(db'.t.pages[p]) == k;
      } else {
        assert DocOk(db, k);
        DocOkCarries(db, db', k);
      }
    }
  }

  lemma StaticItems(t: Store, cut: int, r: int)
    requires TablesOk(t) && r in t.sessions
    ensures forall k :: k in StaticDocs(t, cut, r) ==> k.item < ITEM_FIRST_DYNAMIC
  {
    hide StaticDocs;
    StaticDocsAre(t, cut, r);
  }

  lemma StaticMapped(db: Db, db': Db, r: int)
    requires TablesOk(db.t) && EventsMapped(db) && LogsMapped(db) && r in db.t.sessions
    requires db' == db.(docs := db.docs + StaticDocs(db.t, db.st.cutPages, r))
    ensures EventsMapped(db') && LogsMapped(db')
  {
    hide TablesOk, StaticDocs;
    StaticItems(db.t, db.st.cutPages, r);
  }

  lemma NumberedAre(r: int, top: int, bodies: seq<Body>)
    ensures forall k :: k in Numbered(r, top, bodies) <==> k.session == r && top < k.item <= top + |bodies|
    ensures forall k :: k in Numbered(r, top, bodies) ==> Numbered(r, top, bodies)[k] == bodies[k.item - top - 1]
  {
    forall k: DocKey | k.session == r && top < k.item <= top + |bodies|
      ensures k in Numbered(r, top, bodies)
    {
      var i := k.item - top - 1;
      assert k == DocKey(r, top + 1 + i);
    }
  }

  lemma SlotsAre(r: int, top: int, rows: seq<int>)
    requires Increasing(rows)
    ensures forall x :: x in Slots(r, top, rows) <==> x in rows
    ensures forall i :: 0 <= i < |rows| ==> Slots(r, top, rows)[rows[i]] == DocKey(r, top + 1 + i)
  {}

  /** Rows not indexed before, numbered after every item the session uses. */
  ghost predicate Addable(db: Db, r: int, top: int, count: nat) {
    && r in db.t.sessions
    && ITEM_FIRST_DYNAMIC - 1 <= top && top + count <= ITEM_MAX
    && forall k :: k in db.docs && k.session == r ==> k.item <= top
  }

  /** A new slot's document is the new row's, above every old item, and its own. */
  lemma NewSlot(docs: map<DocKey, Body>, r: int, top: int, rows: seq<int>, bodies: seq<Body>, x: int)
    requires Increasing(rows) && |bodies| == |rows| && x in rows
    ensures x in Slots(r, top, rows)
    ensures exists i :: 0 <= i < |rows| && rows[i] == x && Slots(r, top, rows)[x] == DocKey(r, top + 1 + i)
              && (docs + Numbered(r, top, bodies))[DocKey(r, top + 1 + i)] == bodies[i]
  {
    hide Numbered, Slots;
    NumberedAre(r, top, bodies);
    SlotsAre(r, top, rows);
    var i :| 0 <= i < |rows| && rows[i] == x;
    assert DocKey(r, top + 1 + i) in Numbered(r, top, bodies);
    assert 0 <= i < |rows| && rows[i] == x && Slots(r, top, rows)[x] == DocKey(r, top + 1 + i);
  }

  lemma AddEventsSound(db: Db, r: int, top: int, rows: seq<int>)
    requires Increasing(rows) && RowsIn(rows, db.t.events) && Addable(db, r, top, |rows|)
    requires Sound(db) && forall i :: 0 <= i < |rows| ==> rows[i] !in db.eventDoc
    ensures Sound(AddEvents(db, r, top, rows))
  {
    var db' := AddEvents(db, r, top, rows);
    NumberedAre(r, top, EventBodies(db.t, rows));
    SlotsAre(r, top, rows);
    forall k | k in db'.docs ensures DocOk(db', k) {
      if k in db.docs {
        assert DocOk(db, k);
        DocOkCarries(db, db', k);
      } else {
        var e := rows[k.item - top - 1];
        assert e in db'.eventDoc && db'.eventDoc[e] == k;
      }
    }
  }

  lemma AddEventsMapped(db: Db, r: int, top: int, rows: seq<int>)
    requires Increasing(rows) && RowsIn(rows, db.t.events) && Addable(db, r, top, |rows|)
    requires EventsMapped(db) && LogsMapped(db)
    requires forall i :: 0 <= i < |rows| ==> rows[i] !in db.eventDoc && db.t.events[rows[i]].session == r
    ensures EventsMapped(AddEvents(db, r, top, rows)) && LogsMapped(AddEvents(db, r, top, rows))
  {
    hide Slots, Numbered, EventsMapped, LogsMapped, EventBody;
    var db' := AddEvents(db, r, top, rows);
    var bodies := EventBodies(db.t, rows);
    NumberedAre(r, top, bodies);
    SlotsAre(r, top, rows);
    forall e | e in rows
      ensures db'.eventDoc[e].session == r && top < db'.eventDoc[e].item <= top + |rows|
      ensures db'.eventDoc[e] in db'.docs && db'.docs[db'.eventDoc[e]] == EventBody(db.t.events[e])
    { NewSlot(db.docs, r, top, rows, bodies, e); }
    AddedMapsEvents(db, db', r, top, rows);
  }

  lemma AddedMapsEvents(db: Db, db': Db, r: int, top: int, rows: seq<int>)
    requires EventsMapped(db) && LogsMapped(db) && Increasing(rows) && RowsIn(rows, db.t.events)
    requires Addable(db, r, top, |rows|)
    requires forall i :: 0 <= i < |rows| ==> rows[i] !in db.eventDoc && db.t.events[rows[i]].session == r
    requires db' == db.(docs := db'.docs, eventDoc := db.eventDoc + Slots(r, top, rows))
    requires forall k :: k in db.docs ==> k in db'.docs && db'.docs[k] == db.docs[k]
    requires forall e :: e in rows ==>
               && db'.eventDoc[e].session == r && top < db'.eventDoc[e].item <= top + |rows|
               && db'.eventDoc[e] in db'.docs && db'.docs[db'.eventDoc[e]] == EventBody(db.t.events[e])
    ensures EventsMapped(db') && LogsMapped(db')
  {
    hide Slots, EventBody, LogBody, Addable;
    SlotsAre(r, top, rows);
    SlotsAbove(db, r, top, |rows|);
    NewSlotsApart(db.eventDoc, db.logDoc, r, top, rows);
    MapsCarry(db, db');
  }

  ghost predicate OneToOne(m: map<int, DocKey>) {
    forall x, y :: x in m && y in m && m[x] == m[y] ==> x == y
  }

  ghost predicate Disjoint(m: map<int, DocKey>, other: map<int, DocKey>) {
    forall x, y :: x in m && y in other ==> m[x] != other[y]
  }

  ghost predicate Below(m: map<int, DocKey>, r: int, top: int) {
    forall x :: x in m && m[x].session == r ==> m[x].item <= top
  }

  /** Slots above all that a session uses are used once. */
  lemma NewSlotsApart(m: map<int, DocKey>, other: map<int, DocKey>, r: int, top: int, rows: seq<int>)
    requires Increasing(rows) && OneToOne(m) && Disjoint(m, other) && Below(m, r, top) && Below(other, r, top)
    ensures OneToOne(m + Slots(r, top, rows)) && Disjoint(m + Slots(r, top, rows), other)
  {
    hide Slots;
    SlotsAre(r, top, rows);
    var more := m + Slots(r, top, rows);
    forall x | x in rows ensures more[x].session == r && top < more[x].item {
      var i :| 0 <= i < |rows| && rows[i] == x;
    }
    forall x, y | x in more && y in more && more[x] == more[y] ensures x == y {
      if x in rows && y in rows {
        var i :| 0 <= i < |rows| && rows[i] == x;
        var j :| 0 <= j < |rows| && rows[j] == y;
        assert i == j;
      }
    }
  }

  /** Documents that stay keep what maps to them. */
  lemma MapsCarry(db: Db, db': Db)
    requires db'.t == db.t && forall k :: k in db.docs ==> k in db'.docs && db'.docs[k] == db.docs[k]
    ensures EventsMapped(db) && db'.eventDoc == db.eventDoc ==> EventsMapped(db')
    ensures LogsMapped(db) && db'.logDoc == db.logDoc && Disjoint(db.logDoc, db'.eventDoc) ==> LogsMapped(db')
  {}

  lemma SlotsAbove(db: Db, r: int, top: int, count: nat)
    requires EventsMapped(db) && LogsMapped(db) && Addable(db, r, top, count)
    ensures Below(db.eventDoc, r, top) && Below(db.logDoc, r, top)
    ensures OneToOne(db.eventDoc) && OneToOne(db.logDoc) && Disjoint(db.eventDoc, db.logDoc) && Disjoint(db.logDoc, db.eventDoc)
    ensures ITEM_FIRST_DYNAMIC - 1 <= top && top + count <= ITEM_MAX
  {}

  lemma AddLogsSound(db: Db, r: int, top: int, rows: seq<int>)
    requires Increasing(rows) && RowsIn(rows, db.t.logs) && Addable(db, r, top, |rows|)
    requires Sound(db) && forall i :: 0 <= i < |rows| ==> rows[i] !in db.logDoc
    ensures Sound(AddLogs(db, r, top, rows))
  {
    var db' := AddLogs(db, r, top, rows);
    NumberedAre(r, top, LogBodies(db.t, rows));
    SlotsAre(r, top, rows);
    forall k | k in db'.docs ensures DocOk(db', k) {
      if k in db.docs {
        assert DocOk(db, k);
        DocOkCarries(db, db', k);
      } else {
        var l := rows[k.item - top - 1];
        assert l in db'.logDoc && db'.logDoc[l] == k;
      }
    }
  }

  lemma AddLogsMapped(db: Db, r: int, top: int, rows: seq<int>)
    requires Increasing(rows) && RowsIn(rows, db.t.logs) && Addable(db, r, top, |rows|)
    requires EventsMapped(db) && LogsMapped(db)
    requires forall i :: 0 <= i < |rows| ==> rows[i] !in db.logDoc && db.t.logs[rows[i]].session == Some(r)
    ensures EventsMapped(AddLogs(db, r, top, rows)) && LogsMapped(AddLogs(db, r, top, rows))
  {
    hide Slots, Numbered, EventsMapped, LogsMapped, LogBody;
    var db' := AddLogs(db, r, top, rows);
    var bodies := LogBodies(db.t, rows);
    NumberedAre(r, top, bodies);
    SlotsAre(r, top, rows);
    forall l | l in rows
      ensures db'.logDoc[l].session == r && top < db'.logDoc[l].item <= top + |rows|
      ensures db'.logDoc[l] in db'.docs && db'.docs[db'.logDoc[l]] == LogBody(db.t.logs[l])
    { NewSlot(db.docs, r, top, rows, bodies, l); }
    AddedMapsLogs(db, db', r, top, rows);
  }

  lemma AddedMapsLogs(db: Db, db': Db, r: int, top: int, rows: seq<int>)
    requires EventsMapped(db) && LogsMapped(db) && Increasing(rows) && RowsIn(rows, db.t.logs)
    requires Addable(db, r, top, |rows|)
    requires forall i :: 0 <= i < |rows| ==> rows[i] !in db.logDoc && db.t.logs[rows[i]].session == Some(r)
    requires db' == db.(docs := db'.docs, logDoc := db.logDoc + Slots(r, top, rows), clash := db'.clash)
    requires forall k :: k in db.docs ==> k in db'.docs && db'.docs[k] == db.docs[k]
    requires forall l :: l in rows ==>
               && db'.logDoc[l].session == r && top < db'.logDoc[l].item <= top + |rows|
               && db'.logDoc[l] in db'.docs && db'.docs[db'.logDoc[l]] == LogBody(db.t.logs[l])
    ensures EventsMapped(db') && LogsMapped(db')
  {
    hide Slots, EventBody, LogBody, Addable;
    SlotsAre(r, top, rows);
    SlotsAbove(db, r, top, |rows|);
    NewSlotsApart(db.logDoc, db.eventDoc, r, top, rows);
    MapsCarry(db, db');
  }

  /** The next session the cursor comes to. */
  ghost predicate IsNext(db: Db, r: int) {
    && r in db.t.sessions && db.st.next < r <= db.st.cutSessions
    && forall x :: x in db.t.sessions && db.st.next < x ==> r <= x
  }

  function At(db: Db, next: int): Db {
    db.(st := db.st.(next := next))
  }

  /** The new rows, and only they, gain a document. */
  ghost predicate Grew(db: Db, db': Db, evs: seq<int>, lgs: seq<int>) {
    && db'.t == db.t && db'.docs.Keys >= db.docs.Keys
    && (forall e :: e in db.eventDoc ==> e in db'.eventDoc)
    && (forall l :: l in db.logDoc ==> l in db'.logDoc)
    && (forall e :: e in db'.eventDoc ==> e in db.eventDoc || e in evs)
    && (forall l :: l in db'.logDoc ==> l in db.logDoc || l in lgs)
    && (!db'.st.overflowed ==> forall e :: e in evs ==> e in db'.eventDoc)
    && (!db'.st.overflowed ==> forall l :: l in lgs ==> l in db'.logDoc)
    && db'.st == db.st.(overflowed := db'.st.overflowed, overflowSession := db'.st.overflowSession)
    && (db.st.overflowed ==> db'.st.overflowed)
    && db'.present == db.present && db'.triggers == db.triggers
  }

  function OldEventRows(db: Db, r: int): seq<int> { OldEvents(db.t, db.st.cutEvents, r) }
  function OldLogRows(db: Db, r: int): seq<int> { OldLogs(db.t, db.st.cutLogs, r) }

  function WithStatic(db: Db, r: int): (db': Db)
    requires r in db.t.sessions && TablesOk(db.t)
    ensures db' == db.(docs := db'.docs)
  {
    db.(docs := db.docs + StaticDocs(db.t, db.st.cutPages, r))
  }

  lemma BatchStatic(db: Db, db': Db, r: int)
    requires TablesOk(db.t) && SessionsIndexed(db) && PagesIndexed(db) && IsNext(db, r) && db.st.phase == Building
    requires db'.t == db.t && db'.docs.Keys >= WithStatic(db, r).docs.Keys
    requires db'.st == db.st.(next := r, overflowed := db'.st.overflowed, overflowSession := db'.st.overflowSession)
    ensures SessionsIndexed(db') && PagesIndexed(db')
  {
    StaticDocsAre(db.t, db.st.cutPages, r);
    var was := WithStatic(db, r);
    forall p | p in db.t.pages && (db.t.pages[p].session <= r || p > db.st.cutPages)
      ensures PageKey(db.t.pages[p]) in db'.docs
    {
      if db.t.pages[p].session <= db.st.next || p > db.st.cutPages {
        assert PageKey(db.t.pages[p]) in was.docs;
      } else {
        assert p in OldPages(db.t, db.st.cutPages, r);
        assert PageKey(db.t.pages[p]) in was.docs;
      }
    }
    forall s | s in db.t.sessions && (s <= r || s > db.st.cutSessions) ensures DocKey(s, 0) in db'.docs {
      assert DocKey(s, 0) in was.docs;
    }
  }

  lemma BatchDynamic(db: Db, db': Db, r: int)
    requires forall e :: e in db.t.events ==> db.t.events[e].session in db.t.sessions
    requires forall l :: l in db.t.logs && db.t.logs[l].session.Some? ==> db.t.logs[l].session.value in db.t.sessions
    requires IsNext(db, r) && db.st.phase == Building && !db'.st.overflowed && db'.t == db.t
    requires db'.st == db.st.(next := r, overflowed := false, overflowSession := db'.st.overflowSession)
    requires forall e :: e in db'.eventDoc <==> e in db.eventDoc || e in OldEventRows(db, r)
    requires forall l :: l in db'.logDoc <==> l in db.logDoc || l in OldLogRows(db, r)
    requires EventsIndexed(db) && LogsIndexed(db)
    ensures EventsIndexed(db') && LogsIndexed(db')
  {}

  lemma BatchComplete(db: Db, db': Db, r: int)
    requires TablesOk(db.t) && Complete(db) && IsNext(db, r) && db.st.phase == Building
    requires Grew(WithStatic(db, r), db', OldEventRows(db, r), OldLogRows(db, r))
    ensures Complete(At(db', r))
  {
    hide TablesOk, IsNext, OldEventRows, OldLogRows, SessionsIndexed, PagesIndexed, EventsIndexed, LogsIndexed, OldEvents, OldLogs, StaticDocs;
    BatchStatic(db, At(db', r), r);
    if !db'.st.overflowed {
      References(db.t);
      BatchDynamic(db, At(db', r), r);
    }
  }

  lemma References(t: Store)
    requires TablesOk(t)
    ensures forall e :: e in t.events ==> t.events[e].session in t.sessions
    ensures forall l :: l in t.logs && t.logs[l].session.Some? ==> t.logs[l].session.value in t.sessions
  {}

  lemma BatchNotEarly(db: Db, db': Db, r: int)
    requires NotEarly(db) && CutoffsOk(db) && db.st.next < r && db.st.phase == Building
    requires Grew(db.(docs := db'.docs), db', OldEventRows(db, r), OldLogRows(db, r))
    ensures NotEarly(At(db', r)) && CutoffsOk(At(db', r))
  {
    hide OldEventRows, OldLogRows;
    OldRowsAre(db, r);
    BatchCutoffs(db, db', r);
    hide CutoffsOk;
    assert forall e :: e in db'.eventDoc ==> e in db.eventDoc || e in OldEventRows(db, r);
    assert forall l :: l in db'.logDoc ==> l in db.logDoc || l in OldLogRows(db, r);
  }

  lemma BatchCutoffs(db: Db, db': Db, r: int)
    requires CutoffsOk(db) && db'.t == db.t
    requires db'.st == db.st.(overflowed := db'.st.overflowed, overflowSession := db'.st.overflowSession)
    ensures CutoffsOk(At(db', r))
  {}

  lemma OldRowsAre(db: Db, r: int)
    ensures forall e :: e in OldEventRows(db, r) ==> e in db.t.events && db.t.events[e].session == r
    ensures forall l :: l in OldLogRows(db, r) ==> l in db.t.logs && db.t.logs[l].session == Some(r)
  {}

  /** Soundness and the mappings do not depend on the cursor. */
  lemma CursorFree(db: Db, db': Db)
    requires db' == db.(st := db'.st)
    requires Sound(db) && EventsMapped(db) && LogsMapped(db)
    ensures Sound(db') && EventsMapped(db') && LogsMapped(db')
  {
    SoundCarries(db, db');
  }

  /** The old rows of a session the cursor has not reached are not indexed. */
  ghost predicate Pending(db: Db, r: int, evs: seq<int>, lgs: seq<int>) {
    && Increasing(evs) && Increasing(lgs)
    && (forall i :: 0 <= i < |evs| ==> evs[i] in db.t.events && db.t.events[evs[i]].session == r && evs[i] !in db.eventDoc)
    && (forall i :: 0 <= i < |lgs| ==> lgs[i] in db.t.logs && db.t.logs[lgs[i]].session == Some(r) && lgs[i] !in db.logDoc)
  }

  lemma NotIndexedYet(db: Db, r: int)
    requires NotEarly(db) && db.st.next < r && db.st.phase == Building
    ensures Pending(db, r, OldEventRows(db, r), OldLogRows(db, r))
  {
    var evs, lgs := OldEventRows(db, r), OldLogRows(db, r);
    OldRowsDue(db, r);
    hide OldEventRows, OldLogRows, NotEarly, OldEvents, OldLogs;
    forall i | 0 <= i < |evs| ensures evs[i] in db.t.events && db.t.events[evs[i]].session == r && evs[i] !in db.eventDoc {
      var e := evs[i];
      assert e in evs;
    }
    forall i | 0 <= i < |lgs| ensures lgs[i] in db.t.logs && db.t.logs[lgs[i]].session == Some(r) && lgs[i] !in db.logDoc {
      var l := lgs[i];
      assert l in lgs;
    }
  }

  lemma OldRowsDue(db: Db, r: int)
    requires NotEarly(db) && db.st.next < r && db.st.phase == Building
    ensures Increasing(OldEventRows(db, r)) && Increasing(OldLogRows(db, r))
    ensures forall e :: e in OldEventRows(db, r) ==> e in db.t.events && db.t.events[e].session == r && e !in db.eventDoc
    ensures forall l :: l in OldLogRows(db, r) ==> l in db.t.logs && db.t.logs[l].session == Some(r) && l !in db.logDoc
  {}

  lemma DynamicStep(db: Db, r: int, evs: seq<int>, lgs: seq<int>)
    requires Sound(db) && EventsMapped(db) && LogsMapped(db) && r in db.t.sessions
    requires Pending(db, r, evs, lgs)
    ensures var db' := IndexDynamic(db, r, evs, lgs);
            && Sound(db') && EventsMapped(db') && LogsMapped(db') && db'.clash == db.clash
  {
    hide Sound, EventsMapped, LogsMapped, AddEvents, AddLogs;
    TopItemBounds(db.docs, r);
    var top := TopItem(db.docs, r);
    if top + |evs| + |lgs| > ITEM_MAX {
      CursorFree(db, IndexDynamic(db, r, evs, lgs));
    } else {
      DynamicFits(db, r, top, evs, lgs);
    }
  }

  lemma DynamicFits(db: Db, r: int, top: int, evs: seq<int>, lgs: seq<int>)
    requires Sound(db) && EventsMapped(db) && LogsMapped(db)
    requires Pending(db, r, evs, lgs) && Addable(db, r, top, |evs| + |lgs|)
    ensures var db' := AddLogs(AddEvents(db, r, top, evs), r, top + |evs|, lgs);
            && Sound(db') && EventsMapped(db') && LogsMapped(db') && db'.clash == db.clash
  {
    hide Sound, EventsMapped, LogsMapped, AddEvents, AddLogs;
    AddEventsSound(db, r, top, evs);
    AddEventsMapped(db, r, top, evs);
    AddEventsFrame(db, r, top, evs, |lgs|);
    var db1 := AddEvents(db, r, top, evs);
    AddLogsSound(db1, r, top + |evs|, lgs);
    AddLogsMapped(db1, r, top + |evs|, lgs);
    AddLogsFrame(db1, r, top + |evs|, lgs);
  }

  lemma AddEventsFrame(db: Db, r: int, top: int, rows: seq<int>, more: nat)
    requires Increasing(rows) && RowsIn(rows, db.t.events) && Addable(db, r, top, |rows| + more)
    ensures var db' := AddEvents(db, r, top, rows);
            db'.t == db.t && db'.logDoc == db.logDoc && db'.clash == db.clash && Addable(db', r, top + |rows|, more)
  {
    NumberedAre(r, top, EventBodies(db.t, rows));
  }

  lemma AddLogsFrame(db: Db, r: int, top: int, rows: seq<int>)
    requires Increasing(rows) && RowsIn(rows, db.t.logs) && Addable(db, r, top, |rows|)
    requires forall i :: 0 <= i < |rows| ==> rows[i] !in db.logDoc
    ensures AddLogs(db, r, top, rows).clash == db.clash
  {}

  lemma DynamicGrows(db: Db, r: int, evs: seq<int>, lgs: seq<int>)
    requires Pending(db, r, evs, lgs)
    ensures Grew(db, IndexDynamic(db, r, evs, lgs), evs, lgs)
  {
    hide TopItem, Slots, Numbered, EventBodies, LogBodies, Increasing;
    var top := TopItem(db.docs, r);
    SlotsAre(r, top, evs);
    SlotsAre(r, top + |evs|, lgs);
  }

  /** Indexing the next session lets the cursor move onto it. */
  lemma IndexSessionLive(db: Db, r: int)
    requires LiveOk(db) && TablesOk(db.t) && db.st.phase == Building && IsNext(db, r)
    ensures LiveOk(At(IndexSession(db, r), r))
    ensures IndexSession(db, r).clash == db.clash
    ensures Grew(WithStatic(db, r), IndexSession(db, r), OldEventRows(db, r), OldLogRows(db, r))
  {
    hide TablesOk, Sound, EventsMapped, LogsMapped, Complete, NotEarly, CutoffsOk, IndexDynamic, StaticDocs,
         Pending, OldEvents, OldLogs;
    var evs, lgs := OldEventRows(db, r), OldLogRows(db, r);
    var db1, db2 := WithStatic(db, r), IndexSession(db, r);
    StaticSound(db, db1, r);
    StaticMapped(db, db1, r);
    NotIndexedYet(db, r);
    PendingStays(db, db1, r, evs, lgs);
    DynamicStep(db1, r, evs, lgs);
    DynamicGrows(db1, r, evs, lgs);
    CursorFree(db2, At(db2, r));
    BatchComplete(db, db2, r);
    BatchNotEarly(db, db2, r);
  }

  lemma PendingStays(db: Db, db': Db, r: int, evs: seq<int>, lgs: seq<int>)
    requires Pending(db, r, evs, lgs) && db' == db.(docs := db'.docs)
    ensures Pending(db', r, evs, lgs)
  {}

  // ---- A whole batch ----

  lemma IndexIgnoresCursor(db: Db, r: int, next: int)
    requires r in db.t.sessions && TablesOk(db.t)
    ensures IndexSession(At(db, next), r) == At(IndexSession(db, r), next)
    ensures IndexSession(db, r).st.next == db.st.next
  {
    hide TablesOk, StaticDocs, OldEvents, OldLogs, AddEvents, AddLogs, TopItem;
    var db1 := WithStatic(db, r);
    var evs, lgs := OldEventRows(db, r), OldLogRows(db, r);
    var top := TopItem(db1.docs, r);
    if top + |evs| + |lgs| <= ITEM_MAX { AddsIgnoreCursor(db1, r, top, evs, lgs, next); }
  }

  lemma AddsIgnoreCursor(db: Db, r: int, top: int, evs: seq<int>, lgs: seq<int>, next: int)
    requires Increasing(evs) && Increasing(lgs) && RowsIn(evs, db.t.events) && RowsIn(lgs, db.t.logs)
    ensures AddLogs(AddEvents(At(db, next), r, top, evs), r, top + |evs|, lgs)
            == At(AddLogs(AddEvents(db, r, top, evs), r, top + |evs|, lgs), next)
    ensures AddLogs(AddEvents(db, r, top, evs), r, top + |evs|, lgs).st == db.st
  {
    hide Numbered, Slots, Increasing, RowsIn;
  }

  /** `ids` are the next sessions the cursor comes to, none skipped. */
  ghost predicate Upcoming(db: Db, ids: seq<int>) {
    && Increasing(ids)
    && (forall i :: 0 <= i < |ids| ==> ids[i] in db.t.sessions && db.st.next < ids[i] <= db.st.cutSessions)
    && (forall x, i :: x in db.t.sessions && db.st.next < x && x !in ids && 0 <= i < |ids| ==> ids[i] < x)
  }

  lemma UpcomingPrefix(db: Db, ids: seq<int>)
    requires Upcoming(db, ids) && ids != []
    ensures Upcoming(db, ids[..|ids| - 1])
  {
    var pre := ids[..|ids| - 1];
    forall x, i | x in db.t.sessions && db.st.next < x && x !in pre && 0 <= i < |pre| ensures pre[i] < x {
      assert pre[i] == ids[i];
      if x in ids {
        var j :| 0 <= j < |ids| && ids[j] == x;
        assert j == |ids| - 1;
      }
    }
  }

  lemma UpcomingNext(db: Db, ids: seq<int>)
    requires Upcoming(db, ids) && ids != []
    ensures IsNext(if |ids| == 1 then db else At(db, ids[|ids| - 2]), ids[|ids| - 1])
  {
    var r := ids[|ids| - 1];
    forall x | x in db.t.sessions && (if |ids| == 1 then db.st.next else ids[|ids| - 2]) < x ensures r <= x {
      if x in ids {
        var j :| 0 <= j < |ids| && ids[j] == x;
        assert j == |ids| - 1;
      }
    }
  }

  lemma {:induction false} BatchLive(db: Db, ids: seq<int>)
    requires LiveOk(db) && TablesOk(db.t) && db.st.phase == Building && Upcoming(db, ids) && ids != []
    requires forall r :: r in ids ==> r in db.t.sessions
    ensures LiveOk(At(IndexSessions(db, ids), ids[|ids| - 1]))
    ensures BatchFrame(db, IndexSessions(db, ids))
    decreases |ids|
  {
    hide TablesOk, LiveOk, IndexSession, Upcoming, IsNext, OldEventRows, OldLogRows;
    var pre, r := ids[..|ids| - 1], ids[|ids| - 1];
    UpcomingNext(db, ids);
    if pre == [] {
      assert IndexSessions(db, pre) == db;
      IndexSessionLive(db, r);
    } else {
      UpcomingPrefix(db, ids);
      var db1, last := IndexSessions(db, pre), pre[|pre| - 1];
      BatchLive(db, pre);
      NextDependsOnTables(At(db, last), At(db1, last), r);
      BatchStep(db1, last, r);
    }
  }

  lemma BatchStep(db: Db, last: int, r: int)
    requires LiveOk(At(db, last)) && TablesOk(db.t) && db.st.phase == Building && IsNext(At(db, last), r)
    ensures LiveOk(At(IndexSession(db, r), r))
    ensures BatchFrame(db, IndexSession(db, r))
  {
    hide TablesOk, LiveOk, IndexSession, OldEventRows, OldLogRows;
    IndexSessionLive(At(db, last), r);
    IndexIgnoresCursor(db, r, last);
    assert At(At(IndexSession(db, r), last), r) == At(IndexSession(db, r), r);
  }

  lemma NextDependsOnTables(db: Db, db': Db, r: int)
    requires IsNext(db, r) && db'.t == db.t && db'.st.next == db.st.next && db'.st.cutSessions == db.st.cutSessions
    ensures IsNext(db', r)
  {}

  ghost predicate BatchFrame(db: Db, db': Db) {
    && db'.t == db.t && db'.clash == db.clash && db'.present == db.present && db'.triggers == db.triggers
    && db'.st == db.st.(overflowed := db'.st.overflowed, overflowSession := db'.st.overflowSession)
  }

  lemma PrefixIncreases(q: seq<int>, n: nat)
    requires Increasing(q) && n <= |q|
    ensures Increasing(q[..n])
  {}

  lemma BatchIncreases(db: Db, size: nat)
    ensures Increasing(Batch(db, size))
  {
    var all := Sorted(RemainingSessions(db.t, db.st.next, db.st.cutSessions));
    var ids := Batch(db, size);
    PrefixIncreases(all, |ids|);
    assert all[..|ids|] == ids;
  }

  lemma BatchRemains(db: Db, size: nat, i: nat)
    requires i < |Batch(db, size)|
    ensures Batch(db, size)[i] in RemainingSessions(db.t, db.st.next, db.st.cutSessions)
  {
    assert Batch(db, size)[i] in Batch(db, size);
  }

  lemma BatchSkipsNone(db: Db, size: nat, x: int, i: nat)
    requires x in db.t.sessions && db.st.next < x && x !in Batch(db, size) && i < |Batch(db, size)|
    ensures Batch(db, size)[i] < x
  {
    var left := RemainingSessions(db.t, db.st.next, db.st.cutSessions);
    var ids := Batch(db, size);
    BatchRemains(db, size, i);
    SortedPrefix(left, |ids|);
    assert Sorted(left)[..|ids|] == ids;
    if x <= db.st.cutSessions { assert x in left && ids[i] in ids; }
  }

  lemma BatchIsUpcoming(db: Db, size: nat)
    ensures Upcoming(db, Batch(db, size))
  {
    hide Increasing, Batch;
    BatchIncreases(db, size);
    var ids := Batch(db, size);
    forall i | 0 <= i < |ids| ensures ids[i] in db.t.sessions && db.st.next < ids[i] <= db.st.cutSessions {
      BatchRemains(db, size, i);
    }
    forall x, i | x in db.t.sessions && db.st.next < x && x !in ids && 0 <= i < |ids| ensures ids[i] < x {
      BatchSkipsNone(db, size, x, i);
    }
  }

  lemma BatchShrinks(db: Db, size: nat)
    requires Batch(db, size) != []
    ensures var ids := Batch(db, size);
            |RemainingSessions(db.t, ids[|ids| - 1], db.st.cutSessions)| + |ids|
            == |RemainingSessions(db.t, db.st.next, db.st.cutSessions)|
  {
    var left := RemainingSessions(db.t, db.st.next, db.st.cutSessions);
    var ids := Batch(db, size);
    var last := ids[|ids| - 1];
    SortedRest(left, |ids|);
    assert last == Sorted(left)[|ids| - 1];
    assert last in ids;
    assert RemainingSessions(db.t, last, db.st.cutSessions) == set x | x in left && x > last;
  }

  lemma ReadyLive(db: Db)
    requires LiveOk(db) && TablesOk(db.t) && db.st.phase == Building
    requires RemainingSessions(db.t, db.st.next, db.st.cutSessions) == {}
    ensures LiveOk(db.(st := db.st.(phase := Ready, total := |db.t.sessions|, done := |db.t.sessions|)))
  {
    var db' := db.(st := db.st.(phase := Ready, total := |db.t.sessions|, done := |db.t.sessions|));
    ReadyComplete(db, db');
    ReadyNotEarly(db, db');
    hide TablesOk, Sound, EventsMapped, LogsMapped, Complete, NotEarly, CutoffsOk;
    CursorFree(db, db');
  }

  lemma ReadyComplete(db: Db, db': Db)
    requires Complete(db) && CutoffsOk(db) && TablesOk(db.t) && db.st.phase == Building
    requires RemainingSessions(db.t, db.st.next, db.st.cutSessions) == {}
    requires db' == db.(st := db.st.(phase := Ready, total := db'.st.total, done := db'.st.done))
    ensures Complete(db')
  {
    References(db.t);
    forall r | r in db.t.sessions ensures r <= db.st.next || r > db.st.cutSessions {
      assert r !in RemainingSessions(db.t, db.st.next, db.st.cutSessions);
    }
  }

  lemma ReadyNotEarly(db: Db, db': Db)
    requires NotEarly(db) && CutoffsOk(db)
    requires db' == db.(st := db.st.(phase := Ready, total := db'.st.total, done := db'.st.done))
    ensures NotEarly(db') && CutoffsOk(db')
  {}

  // ---- Every step keeps the invariant ----

  /** An ingest or deleting step in an unchanged phase. */
  lemma IngestKeeps(db: Db, db': Db)
    requires Inv(db) && TablesOk(db'.t)
    requires db'.clash == db.clash && db'.present == db.present && db'.triggers == db.triggers
    requires db'.st == db.st.(total := db'.st.total, overflowed := db'.st.overflowed, overflowSession := db'.st.overflowSession)
    requires Live(db) ==> LiveOk(db')
    requires db.st.phase == Building ==>
               db'.st.total - |RemainingSessions(db'.t, db.st.next, db.st.cutSessions)|
               == db.st.total - |RemainingSessions(db.t, db.st.next, db.st.cutSessions)|
    requires !Live(db) ==> db'.docs == db.docs && db'.logDoc == db.logDoc
    ensures Inv(db')
  {
    hide TablesOk, LiveOk;
  }

  lemma SessionInKeeps(db: Db, r: int, s: Session)
    requires Inv(db) && Enabled(db, SessionIn(r, s))
    ensures Inv(InsertSession(db, r, s))
  {
    PutSessionOk(db.t, r, s);
    var db' := InsertSession(db, r, s);
    if Live(db) {
      NewSessionUnindexed(db, r, s);
      SessionLive(db, db', r, s);
      NewSessionBeyond(db, r, s);
    }
    hide TablesOk, LiveOk, Enabled;
    IngestKeeps(db, db');
  }

  lemma NewSessionUnindexed(db: Db, r: int, s: Session)
    requires TablesOk(db.t) && Sound(db) && r > db.t.lastSession
    ensures DocKey(r, 0) !in db.docs
  {
    assert DocKey(r, 0) in db.docs ==> DocOk(db, DocKey(r, 0));
  }

  lemma NewSessionBeyond(db: Db, r: int, s: Session)
    requires CutoffsOk(db) && r > db.t.lastSession
    ensures RemainingSessions(PutSession(db.t, r, s), db.st.next, db.st.cutSessions)
            == RemainingSessions(db.t, db.st.next, db.st.cutSessions)
  {}

  lemma SessionUpKeeps(db: Db, r: int, s: Session)
    requires Inv(db) && Enabled(db, SessionUp(r, s))
    ensures Inv(UpdateSession(db, r, s))
  {
    hide TablesOk, LiveOk, UpdateSession, SessionFits;
    PutSessionOk(db.t, r, s);
    UpdateFrame(db, r, s);
    if Live(db) { SessionUpLive(db, r, s); }
    IngestKeeps(db, UpdateSession(db, r, s));
  }

  lemma UpdateFrame(db: Db, r: int, s: Session)
    requires r in db.t.sessions
    ensures var db' := UpdateSession(db, r, s);
            && db' == db.(t := db'.t, docs := db'.docs) && (!db.triggers ==> db'.docs == db.docs)
            && RemainingSessions(db'.t, db.st.next, db.st.cutSessions) == RemainingSessions(db.t, db.st.next, db.st.cutSessions)
  {}

  lemma SessionUpLive(db: Db, r: int, s: Session)
    requires LiveOk(db) && TablesOk(db.t) && db.triggers && r in db.t.sessions
    ensures LiveOk(UpdateSession(db, r, s))
  {
    hide LiveOk, TablesOk;
    var db', was := UpdateSession(db, r, s), db.t.sessions[r];
    if was.initialUrl != s.initialUrl || was.exitUrl != s.exitUrl {
      SessionLive(db, db', r, s);
    } else {
      SameUrlsLive(db, db', r, s);
    }
  }

  lemma SameUrlsLive(db: Db, db': Db, r: int, s: Session)
    requires LiveOk(db) && r in db.t.sessions && TablesOk(db.t)
    requires SessionBody(db.t.sessions[r]) == SessionBody(s)
    requires db' == db.(t := PutSession(db.t, r, s))
    ensures LiveOk(db')
  {
    SameUrlsSound(db, db', r, s);
    SameUrlsComplete(db, db', r, s);
  }

  lemma SameUrlsSound(db: Db, db': Db, r: int, s: Session)
    requires Sound(db) && EventsMapped(db) && LogsMapped(db) && r in db.t.sessions
    requires SessionBody(db.t.sessions[r]) == SessionBody(s)
    requires db' == db.(t := PutSession(db.t, r, s))
    ensures Sound(db') && EventsMapped(db') && LogsMapped(db')
  {
    forall k | k in db'.docs ensures DocOk(db', k) { assert DocOk(db, k); DocOkCarries(db, db', k); }
  }

  lemma SameUrlsComplete(db: Db, db': Db, r: int, s: Session)
    requires Complete(db) && NotEarly(db) && CutoffsOk(db) && r in db.t.sessions
    requires db' == db.(t := PutSession(db.t, r, s))
    ensures Complete(db') && NotEarly(db') && CutoffsOk(db')
  {}

  lemma SessionOutKeeps(db: Db, r: int)
    requires Inv(db) && r in db.t.sessions
    ensures Inv(DeleteSession(db, r))
  {
    hide TablesOk, LiveOk, DeleteSession;
    DropSessionOk(db.t, r);
    DeleteFrame(db, r);
    if Live(db) { SessionOutLive(db, r); }
    IngestKeeps(db, DeleteSession(db, r));
  }

  /** Deleting a session the cursor has still to reach lowers the total by one. */
  lemma DeleteFrame(db: Db, r: int)
    requires r in db.t.sessions && ProgressOk(db)
    ensures var db' := DeleteSession(db, r);
            && db'.clash == db.clash && db'.present == db.present && db'.triggers == db.triggers
            && db'.st == db.st.(total := db'.st.total)
            && (!db.triggers ==> db'.docs == db.docs && db'.logDoc == db.logDoc)
            && (db.triggers && db.st.phase == Building ==>
                  db'.st.total - |RemainingSessions(db'.t, db.st.next, db.st.cutSessions)|
                  == db.st.total - |RemainingSessions(db.t, db.st.next, db.st.cutSessions)|)
  {
    var left := RemainingSessions(db.t, db.st.next, db.st.cutSessions);
    assert RemainingSessions(DropSession(db.t, r), db.st.next, db.st.cutSessions) == left - {r};
  }

  lemma PageInKeeps(db: Db, p: int, page: Page)
    requires Inv(db) && Enabled(db, PageIn(p, page))
    ensures Inv(InsertPage(db, p, page))
  {
    PutPageOk(db.t, p, page);
    var db' := InsertPage(db, p, page);
    if Live(db) {
      NewPageUnindexed(db, p, page);
      PageLive(db, db', p, page);
    }
    assert RemainingSessions(db'.t, db.st.next, db.st.cutSessions) == RemainingSessions(db.t, db.st.next, db.st.cutSessions);
    hide TablesOk, LiveOk, Enabled;
    IngestKeeps(db, db');
  }

  lemma NewPageUnindexed(db: Db, p: int, page: Page)
    requires TablesOk(db.t) && Sound(db) && p > db.t.lastPage && PageFits(db.t, p, page)
    ensures PageKey(page) !in db.docs && p !in db.t.pages
  {
    assert PageKey(page) in db.docs ==> DocOk(db, PageKey(page));
  }

  lemma PageUpKeeps(db: Db, p: int, url: string, title: string)
    requires Inv(db) && p in db.t.pages
    ensures Inv(UpdatePage(db, p, url, title))
  {
    hide TablesOk, LiveOk, UpdatePage, PageFits;
    var page := db.t.pages[p].(url := url, title := title);
    PageStillFits(db.t, p, page);
    PutPageOk(db.t, p, page);
    UpdatePageFrame(db, p, url, title);
    if Live(db) { PageUpLive(db, p, url, title); }
    IngestKeeps(db, UpdatePage(db, p, url, title));
  }

  lemma PageStillFits(t: Store, p: int, page: Page)
    requires TablesOk(t) && p in t.pages && page.session == t.pages[p].session && page.idx == t.pages[p].idx
    ensures PageFits(t, p, page) && p <= t.lastPage
  {}

  lemma UpdatePageFrame(db: Db, p: int, url: string, title: string)
    requires p in db.t.pages
    ensures var db' := UpdatePage(db, p, url, title);
            && db' == db.(t := db'.t, docs := db'.docs) && (!db.triggers ==> db'.docs == db.docs)
            && RemainingSessions(db'.t, db.st.next, db.st.cutSessions) == RemainingSessions(db.t, db.st.next, db.st.cutSessions)
  {}

  lemma PageUpLive(db: Db, p: int, url: string, title: string)
    requires LiveOk(db) && TablesOk(db.t) && db.triggers && p in db.t.pages
    ensures LiveOk(UpdatePage(db, p, url, title))
  {
    hide LiveOk, TablesOk, PageFits;
    var page := db.t.pages[p].(url := url, title := title);
    PageStillFits(db.t, p, page);
    if page == db.t.pages[p] {
      assert db.t.pages[p := page] == db.t.pages;
      assert UpdatePage(db, p, url, title) == db;
    } else {
      PageLive(db, UpdatePage(db, p, url, title), p, page);
    }
  }

  lemma EventInKeeps(db: Db, e: int, ev: Event)
    requires Inv(db) && EventFits(db.t, e, ev)
    ensures Inv(InsertEvent(db, e, ev))
  {
    hide TablesOk, LiveOk, InsertEvent, EventFits;
    PutEventOk(db.t, e, ev);
    EventInFrame(db, e, ev);
    if Live(db) {
      assert EventsWithin(db) && LogsWithin(db) by { LiveWithin(db); }
      EventLive(db, e, ev);
    }
    IngestKeeps(db, InsertEvent(db, e, ev));
  }

  lemma RemainsSame(t: Store, t': Store, next: int, cut: int)
    requires t'.sessions == t.sessions
    ensures RemainingSessions(t', next, cut) == RemainingSessions(t, next, cut)
  {}

  lemma EventInFrame(db: Db, e: int, ev: Event)
    ensures var db' := InsertEvent(db, e, ev);
            && db'.present == db.present && db'.triggers == db.triggers
            && db'.st == db.st.(overflowed := db'.st.overflowed, overflowSession := db'.st.overflowSession)
            && (!db.triggers ==> db'.docs == db.docs && db'.logDoc == db.logDoc && db'.clash == db.clash)
            && RemainingSessions(db'.t, db.st.next, db.st.cutSessions) == RemainingSessions(db.t, db.st.next, db.st.cutSessions)
  {
    hide HasRoom, TopItem, RemainingSessions;
    RemainsSame(db.t, InsertEvent(db, e, ev).t, db.st.next, db.st.cutSessions);
  }

  lemma LogInKeeps(db: Db, l: int, lg: Log)
    requires Inv(db) && LogFits(db.t, l, lg)
    ensures Inv(InsertLog(db, l, lg))
  {
    hide TablesOk, LiveOk, InsertLog, LogFits;
    PutLogOk(db.t, l, lg);
    LogInFrame(db, l, lg);
    if Live(db) {
      assert EventsWithin(db) && LogsWithin(db) by { LiveWithin(db); }
      LogLive(db, l, lg);
    }
    IngestKeeps(db, InsertLog(db, l, lg));
  }

  lemma OverflowFrame(db: Db, r: int)
    ensures var db' := Overflow(db, r);
            db' == db.(st := db.st.(overflowed := db'.st.overflowed, overflowSession := db'.st.overflowSession))
  {}

  lemma LogInFrame(db: Db, l: int, lg: Log)
    ensures var db' := InsertLog(db, l, lg);
            && db'.present == db.present && db'.triggers == db.triggers
            && db'.st == db.st.(overflowed := db'.st.overflowed, overflowSession := db'.st.overflowSession)
            && (!db.triggers ==> db'.docs == db.docs && db'.logDoc == db.logDoc && db'.clash == db.clash)
            && RemainingSessions(db'.t, db.st.next, db.st.cutSessions) == RemainingSessions(db.t, db.st.next, db.st.cutSessions)
  {
    RemainsSame(db.t, PutLog(db.t, l, lg), db.st.next, db.st.cutSessions);
    hide HasRoom, TopItem, RemainingSessions, LogBody, PutLog, Overflow;
    var db', db1 := InsertLog(db, l, lg), db.(t := PutLog(db.t, l, lg));
    if !db.triggers || lg.session.None? {
      assert db' == db1;
    } else if HasRoom(db, lg.session.value) {
      assert db' == db.(t := db'.t, docs := db'.docs, logDoc := db'.logDoc, clash := db'.clash);
    } else {
      OverflowFrame(db1, lg.session.value);
    }
  }

  lemma LogOutKeeps(db: Db, l: int)
    requires Inv(db) && l in db.t.logs
    ensures Inv(DeleteLog(db, l))
  {
    DropLogOk(db.t, l);
    var db' := DeleteLog(db, l);
    assert RemainingSessions(db'.t, db.st.next, db.st.cutSessions) == RemainingSessions(db.t, db.st.next, db.st.cutSessions);
    if Live(db) { LogOutLive(db, l); }
    hide TablesOk, LiveOk;
    IngestKeeps(db, db');
  }

  // ---- The worker ----

  lemma HighestRowBounds<T>(rows: map<int, T>, last: int)
    requires last >= 0 && forall x :: x in rows ==> 0 < x <= last
    ensures 0 <= HighestRow(rows) <= last
    ensures forall x :: x in rows ==> x <= HighestRow(rows)
  {}

  lemma StartBuildKeeps(db: Db)
    requires Inv(db) && db.st.phase == Off
    ensures Inv(StartBuild(db))
  {
    hide TablesOk, NotEarly, CutoffsOk, Complete, HighestRow, LiveOk;
    var t, db' := db.t, StartBuild(db);
    StartCutoffs(db);
    NothingDue(db');
    EmptyIsLive(db');
    assert RemainingSessions(t, 0, HighestRow(t.sessions)) == t.sessions.Keys;
  }

  lemma EmptyIsLive(db: Db)
    requires db.docs == map[] && db.eventDoc == map[] && db.logDoc == map[] && Complete(db) && NotEarly(db) && CutoffsOk(db)
    ensures LiveOk(db)
  {
    hide Complete, NotEarly, CutoffsOk;
  }

  lemma StartCutoffs(db: Db)
    requires TablesOk(db.t)
    ensures CutoffsOk(StartBuild(db))
    ensures var t := db.t;
            && (forall r :: r in t.sessions ==> 0 < r <= HighestRow(t.sessions)) && (forall p :: p in t.pages ==> p <= HighestRow(t.pages))
            && (forall e :: e in t.events ==> e <= HighestRow(t.events)) && (forall l :: l in t.logs ==> l <= HighestRow(t.logs))
  {
    var t := db.t;
    HighestRowBounds(t.sessions, t.lastSession);
    HighestRowBounds(t.pages, t.lastPage);
    HighestRowBounds(t.events, t.lastEvent);
    HighestRowBounds(t.logs, t.lastLog);
    hide HighestRow;
  }

  /** Right after the start no row is due. */
  lemma NothingDue(db: Db)
    requires db.st.phase == Building && db.st.next == 0 && db.eventDoc == map[] && db.logDoc == map[] && TablesOk(db.t)
    requires forall r :: r in db.t.sessions ==> 0 < r <= db.st.cutSessions
    requires forall p :: p in db.t.pages ==> p <= db.st.cutPages
    requires forall e :: e in db.t.events ==> e <= db.st.cutEvents
    requires forall l :: l in db.t.logs ==> l <= db.st.cutLogs
    ensures Complete(db) && NotEarly(db)
  {}

  function Advanced(db: Db, ids: seq<int>): Db
    requires TablesOk(db.t) && ids != [] && forall r :: r in ids ==> r in db.t.sessions
  {
    var db1 := IndexSessions(db, ids);
    db1.(st := db1.st.(next := ids[|ids| - 1], done := db1.st.done + |ids|))
  }

  lemma BuildingParts(db: Db)
    requires Inv(db) && db.st.phase == Building
    ensures TablesOk(db.t) && LiveOk(db) && db.st.next >= 0
  {
    hide TablesOk, LiveOk;
  }

  lemma AdvancedKeeps(db: Db, ids: seq<int>)
    requires TablesOk(db.t) && LiveOk(db)
    requires Inv(db) && db.st.phase == Building && Upcoming(db, ids) && ids != [] && ids[|ids| - 1] > db.st.next
    requires forall r :: r in ids ==> r in db.t.sessions
    requires |RemainingSessions(db.t, ids[|ids| - 1], db.st.cutSessions)| + |ids|
             == |RemainingSessions(db.t, db.st.next, db.st.cutSessions)|
    ensures Inv(Advanced(db, ids))
  {
    hide Inv, TablesOk, LiveOk, IndexSessions, Upcoming, RemainingSessions;
    BatchLive(db, ids);
    AdvancedInv(db, IndexSessions(db, ids), ids[|ids| - 1], |ids|);
  }

  lemma AdvancedInv(db: Db, db1: Db, last: int, n: nat)
    requires Inv(db) && db.st.phase == Building && BatchFrame(db, db1) && LiveOk(At(db1, last)) && last > db.st.next
    requires |RemainingSessions(db.t, last, db.st.cutSessions)| + n == |RemainingSessions(db.t, db.st.next, db.st.cutSessions)|
    ensures Inv(db1.(st := db1.st.(next := last, done := db1.st.done + n)))
  {
    hide TablesOk, LiveOk, RemainingSessions;
    CountIsNoPart(At(db1, last), db1.(st := db1.st.(next := last, done := db1.st.done + n)));
  }

  lemma BatchMembers(db: Db, size: nat)
    ensures var ids := Batch(db, size);
            && (forall r :: r in ids ==> r in db.t.sessions)
            && (ids != [] ==> ids[|ids| - 1] > db.st.next)
  {
    var ids := Batch(db, size);
    if ids != [] { assert ids[|ids| - 1] in ids; }
  }

  lemma BuildBatchKeeps(db: Db, size: nat)
    requires Inv(db) && db.st.phase == Building && size > 0
    ensures Inv(BuildBatch(db, size))
  {
    hide TablesOk, LiveOk, Upcoming, RemainingSessions, Batch, IndexSessions;
    BuildingParts(db);
    if Batch(db, size) == [] {
      EmptyBatch(db, size);
      ReadyLive(db);
    } else {
      NonemptyKeeps(db, size);
    }
  }

  lemma NonemptyKeeps(db: Db, size: nat)
    requires Inv(db) && db.st.phase == Building && Batch(db, size) != []
    ensures Inv(BuildBatch(db, size))
  {
    hide Inv, TablesOk, LiveOk, Upcoming, RemainingSessions, Batch, IndexSessions;
    var ids := Batch(db, size);
    BatchMembers(db, size);
    BatchIsUpcoming(db, size);
    BatchShrinks(db, size);
    BuildingParts(db);
    AdvancedKeeps(db, ids);
  }

  lemma EmptyBatch(db: Db, size: nat)
    requires size > 0 && Batch(db, size) == []
    ensures RemainingSessions(db.t, db.st.next, db.st.cutSessions) == {}
  {
    var all := Sorted(RemainingSessions(db.t, db.st.next, db.st.cutSessions));
    assert |all| == 0;
  }

  lemma CountIsNoPart(db: Db, db': Db)
    requires LiveOk(db) && db' == db.(st := db.st.(done := db'.st.done))
    ensures LiveOk(db')
  {
    CountIsNoPart1(db, db');
    hide Complete, NotEarly, Sound, EventsMapped, LogsMapped;
    CursorFree(db, db');
  }

  lemma CountIsNoPart1(db: Db, db': Db)
    requires Complete(db) && NotEarly(db) && db' == db.(st := db.st.(done := db'.st.done))
    ensures Complete(db') && NotEarly(db')
  {}

  lemma DropKeeps(db: Db, rows: nat)
    requires Inv(db)
    ensures Live(db) ==> Inv(StartDrop(db))
    ensures db.st.phase == Dropping ==> Inv(DropBatch(db, rows))
  {
    hide TablesOk, LiveOk;
  }

  lemma WorkKeeps(db: Db, enabled: bool, busy: bool, size: nat, rows: nat)
    requires Inv(db) && size > 0
    ensures Inv(RunStep(db, enabled, busy, size, rows).0)
  {
    hide Inv, BuildBatch, DropBatch, StartBuild;
    if db.st.phase == Off { StartBuildKeeps(db); }
    if db.st.phase == Building { BuildBatchKeeps(db, size); }
    DropKeeps(db, rows);
  }

  lemma SettingsKeep(db: Db, enabled: bool, failed: bool)
    requires Inv(db)
    ensures Inv(db.(st := db.st.(enabled := enabled, failed := failed)))
  {
    hide TablesOk, LiveOk;
    var db' := db.(st := db.st.(enabled := enabled, failed := failed));
    if Live(db) { SettingsLive(db, db'); }
  }

  lemma SettingsLive(db: Db, db': Db)
    requires LiveOk(db) && db' == db.(st := db.st.(enabled := db'.st.enabled, failed := db'.st.failed))
    ensures LiveOk(db')
  {
    SettingsComplete(db, db');
    hide Complete, NotEarly, Sound, EventsMapped, LogsMapped;
    CursorFree(db, db');
  }

  lemma SettingsComplete(db: Db, db': Db)
    requires Complete(db) && NotEarly(db) && db' == db.(st := db.st.(enabled := db'.st.enabled, failed := db'.st.failed))
    ensures Complete(db') && NotEarly(db')
  {}

  /** The invariant is inductive: no admitted step of ingest, deletion, the
      setting or the worker breaks it. */
  lemma ApplyKeeps(db: Db, step: Step)
    requires Inv(db) && Enabled(db, step)
    ensures Inv(Apply(db, step))
  {
    hide Inv;
    match step
    case SessionIn(r, s) => SessionInKeeps(db, r, s);
    case SessionUp(r, s) => SessionUpKeeps(db, r, s);
    case SessionOut(r) => SessionOutKeeps(db, r);
    case PageIn(p, page) => PageInKeeps(db, p, page);
    case PageUp(p, url, title) => PageUpKeeps(db, p, url, title);
    case EventIn(e, ev) => EventInKeeps(db, e, ev);
    case LogIn(l, lg) => LogInKeeps(db, l, lg);
    case LogOut(l) => LogOutKeeps(db, l);
    case Switch(on) => SettingsKeep(db, on, false);
    case Work(enabled, busy, size, rows) => WorkKeeps(db, enabled, busy, size, rows);
    case WorkFailed => SettingsKeep(db, db.st.enabled, true);
  }

  lemma {:induction false} RunKeeps(db: Db, steps: seq<Step>)
    requires Inv(db) && IsRun(db, steps)
    ensures Inv(After(db, steps))
    decreases |steps|
  {
    if steps != [] {
      hide Inv, Enabled, Apply;
      ApplyKeepsTables(db, steps[0]);
      ApplyKeeps(db, steps[0]);
      RunKeeps(Apply(db, steps[0]), steps[1..]);
    }
  }

  /** From an empty store with the index off, every reachable state is sound. */
  lemma Reachable(steps: seq<Step>)
    requires IsRun(Fresh, steps)
    ensures Inv(After(Fresh, steps))
  {
    RunKeeps(Fresh, steps);
  }
}
