/** When the index overflows: exactly when a session runs out of item numbers, one
    step at a time, over runs, and for a build nobody disturbs. */
module SearchRoom {
  import opened Rows
  import opened Tables
  import opened SearchIndex
  import opened SearchInvariant
  import opened SearchTheorems
  import opened SearchFreshness

  /** The items of r's range once a build batch has written its session and page
      documents. */
  function Used(db: Db, r: int): set<int> {
    (set k | k in db.docs.Keys && k.session == r :: k.item)
    + {0} + PageItems(db, r)
  }

  function PageItems(db: Db, r: int): set<int> {
    set p | p in db.t.pages && db.t.pages[p].session == r && p <= db.st.cutPages :: db.t.pages[p].idx + 1
  }

  function OwnEvents(db: Db, r: int): set<int> {
    set e | e in db.t.events && db.t.events[e].session == r && e <= db.st.cutEvents
  }

  function OwnLogs(db: Db, r: int): set<int> {
    set l | l in db.t.logs && db.t.logs[l].session == Some(r) && l <= db.st.cutLogs
  }

  /** The last item number that building r would take. */
  function Needed(db: Db, r: int): int {
    Max(Used(db, r) + {10_001}) + |OwnEvents(db, r)| + |OwnLogs(db, r)|
  }

  // ---- One session ----

  lemma TopIsMax(docs: map<DocKey, Body>, r: int)
    ensures TopItem(docs, r) == Max(ItemsOf(docs, r) + {10_001})
  {}

  lemma MaxOnly(s: set<int>, m: int)
    requires m in s && forall x :: x in s ==> x <= m
    ensures Max(s) == m
  {}

  lemma ItemsJoin(a: map<DocKey, Body>, b: map<DocKey, Body>, r: int)
    ensures ItemsOf(a + b, r) == ItemsOf(a, r) + ItemsOf(b, r)
  {
    forall x ensures x in ItemsOf(a + b, r) <==> x in ItemsOf(a, r) || x in ItemsOf(b, r) {
      assert x in ItemsOf(a + b, r) <==> DocKey(r, x) in (a + b).Keys;
      assert x in ItemsOf(a, r) <==> DocKey(r, x) in a.Keys;
      assert x in ItemsOf(b, r) <==> DocKey(r, x) in b.Keys;
    }
  }

  lemma StaticItem(db: Db, r: int, x: int)
    requires TablesOk(db.t) && r in db.t.sessions
    ensures x in ItemsOf(StaticDocs(db.t, db.st.cutPages, r), r) <==> x == 0 || x in PageItems(db, r)
  {
    StaticDocsAre(db.t, db.st.cutPages, r);
    hide TablesOk, StaticDocs;
    var docs := StaticDocs(db.t, db.st.cutPages, r);
    assert x in ItemsOf(docs, r) <==> DocKey(r, x) in docs.Keys;
    if x in PageItems(db, r) {
      var p :| p in db.t.pages && db.t.pages[p].session == r && p <= db.st.cutPages && db.t.pages[p].idx + 1 == x;
      assert p in OldPages(db.t, db.st.cutPages, r);
    }
  }

  lemma StaticItems(db: Db, r: int)
    requires TablesOk(db.t) && r in db.t.sessions
    ensures ItemsOf(WithStatic(db, r).docs, r) == Used(db, r)
  {
    hide TablesOk, StaticDocs, PageItems, ItemsOf;
    ItemsJoin(db.docs, StaticDocs(db.t, db.st.cutPages, r), r);
    forall x ensures x in ItemsOf(StaticDocs(db.t, db.st.cutPages, r), r) <==> x in {0} + PageItems(db, r) { StaticItem(db, r, x); }
    OwnItems(db.docs, r);
  }

  lemma OwnItems(docs: map<DocKey, Body>, r: int)
    ensures ItemsOf(docs, r) == set k | k in docs.Keys && k.session == r :: k.item
  {}

  lemma OldCounts(db: Db, r: int)
    ensures |OldEventRows(db, r)| == |OwnEvents(db, r)| && |OldLogRows(db, r)| == |OwnLogs(db, r)|
  {
    IncreasingSize(OldEventRows(db, r));
    IncreasingSize(OldLogRows(db, r));
    assert (set e | e in OldEventRows(db, r)) == OwnEvents(db, r);
    assert (set l | l in OldLogRows(db, r)) == OwnLogs(db, r);
  }

  lemma FitsIff(db: Db, r: int)
    requires TablesOk(db.t) && r in db.t.sessions
    ensures Fits(db, r) <==> Needed(db, r) <= 0xFF_FFFF
  {
    hide TablesOk, OldEvents, OldLogs, StaticDocs, Used, OwnEvents, OwnLogs, TopItem;
    StaticItems(db, r);
    TopIsMax(WithStatic(db, r).docs, r);
    OldCounts(db, r);
  }

  /** Building one session overflows the index exactly when its items do not all fit
      its range; it is then the one recorded. */
  lemma SessionOverflowsIff(db: Db, r: int)
    requires TablesOk(db.t) && r in db.t.sessions
    ensures var st := IndexSession(db, r).st;
            && (st.overflowed <==> db.st.overflowed || Needed(db, r) > 0xFF_FFFF)
            && st.overflowSession == if Needed(db, r) > 0xFF_FFFF then r else db.st.overflowSession
  {
    FitsIff(db, r);
    OldRowsFit(db, r);
    hide TablesOk, OldEvents, OldLogs, StaticDocs, TopItem, RowsIn, Increasing, Needed;
  }

  // ---- A batch ----

  /** Building a list of sessions overflows exactly when one of them does not fit. */
  lemma {:induction false} ListOverflowsIff(db: Db, ids: seq<int>)
    requires TablesOk(db.t) && Increasing(ids) && forall r :: r in ids ==> r in db.t.sessions
    ensures IndexSessions(db, ids).st.overflowed <==> db.st.overflowed || exists r :: r in ids && Needed(db, r) > 0xFF_FFFF
    decreases |ids|
  {
    hide TablesOk, IndexSession, Fits, Needed;
    if ids != [] {
      var before, r := ids[..|ids| - 1], ids[|ids| - 1];
      assert ids == before + [r];
      forall x | x in before ensures x in ids && x != r {
        var i :| 0 <= i < |before| && before[i] == x;
        assert ids[i] == x;
      }
      ListOverflowsIff(db, before);
      OtherSessions(db, before, r);
      FitsIff(db, r);
      FitsIff(IndexSessions(db, before), r);
      SessionOverflowsIff(IndexSessions(db, before), r);
    }
  }

  /** r is among the next `size` sessions the cursor comes to. */
  predicate Upcoming(db: Db, size: nat, r: int) {
    && r in db.t.sessions && db.st.next < r <= db.st.cutSessions
    && |set x | x in db.t.sessions && db.st.next < x < r| < size
  }

  /** A batch is the next sessions, `size` of them or as many as there are. */
  lemma BatchIsUpcoming(db: Db, size: nat, r: int)
    ensures r in Batch(db, size) <==> Upcoming(db, size, r)
    ensures Increasing(Batch(db, size))
  {
    hide RemainingSessions;
    var left := RemainingSessions(db.t, db.st.next, db.st.cutSessions);
    LeftIff(db, r);
    FirstOfSet(left, size, r);
    if r in left { SmallerAre(db, r); }
  }

  lemma LeftIff(db: Db, r: int)
    ensures r in RemainingSessions(db.t, db.st.next, db.st.cutSessions) <==> r in db.t.sessions && db.st.next < r <= db.st.cutSessions
  {}

  /** The first of a sorted set are those with fewer smaller ones. */
  lemma FirstOfSet(s: set<int>, size: nat, r: int)
    ensures var q := Sorted(s); var first := if |q| <= size then q else q[..size];
            && Increasing(first)
            && (r in first <==> r in s && |set x | x in s && x < r| < size)
  {
    hide Increasing;
    var q := Sorted(s);
    StillIncreasing(q, size);
    if r in s {
      var i :| 0 <= i < |q| && q[i] == r;
      EarlierCount(q, i);
      SameSmaller(s, q, i);
      FirstHas(q, size, i);
      FewerThanAll(s, r);
    }
  }

  lemma StillIncreasing(q: seq<int>, size: nat)
    requires Increasing(q)
    ensures |q| > size ==> Increasing(q[..size])
  {}

  lemma SameSmaller(s: set<int>, q: seq<int>, i: nat)
    requires i < |q| && (forall x :: x in q <==> x in s) && forall x :: x in q[..i] <==> x in q && x < q[i]
    ensures (set x | x in q[..i]) == set x | x in s && x < q[i]
  {
    var early := set x | x in q[..i];
    forall x ensures x in early <==> x in s && x < q[i] { assert x in early <==> x in q[..i]; }
  }

  lemma FewerThanAll(s: set<int>, r: int)
    requires r in s
    ensures |set x | x in s && x < r| < |s|
  {
    var smaller := set x | x in s && x < r;
    assert smaller <= s - {r};
    Subset(smaller, s - {r});
  }

  lemma SmallerAre(db: Db, r: int)
    requires r <= db.st.cutSessions
    ensures (set x | x in db.t.sessions && db.st.next < x < r)
            == set x | x in RemainingSessions(db.t, db.st.next, db.st.cutSessions) && x < r
  {}

  lemma FirstHas(all: seq<int>, size: nat, i: nat)
    requires Increasing(all) && i < |all|
    ensures all[i] in (if |all| <= size then all else all[..size]) <==> i < size || |all| <= size
  {
    if |all| > size {
      if i < size { assert all[..size][i] == all[i]; }
      if all[i] in all[..size] {
        var j :| 0 <= j < size && all[..size][j] == all[i];
        assert j == i;
      }
    }
  }

  /** Before the i-th of an increasing list come exactly the smaller ones. */
  lemma EarlierCount(all: seq<int>, i: nat)
    requires Increasing(all) && i < |all|
    ensures forall x :: x in all[..i] <==> x in all && x < all[i]
    ensures |set x | x in all[..i]| == i
  {
    IncreasingSize(all[..i]);
    forall x | x in all && x < all[i] ensures x in all[..i] {
      var j :| 0 <= j < |all| && all[j] == x;
      assert all[..i][j] == x;
    }
    forall x | x in all[..i] ensures x in all && x < all[i] {
      var j :| 0 <= j < i && all[..i][j] == x;
    }
  }

  lemma BatchOverflowsIff(db: Db, size: nat)
    requires TablesOk(db.t) && size > 0
    ensures BuildBatch(db, size).st.overflowed <==> db.st.overflowed || exists r :: Upcoming(db, size, r) && Needed(db, r) > 0xFF_FFFF
  {
    hide TablesOk, IndexSessions, Batch, Needed, Upcoming;
    var ids := Batch(db, size);
    BatchMembers(db, size);
    forall r ensures r in ids <==> Upcoming(db, size, r) { BatchIsUpcoming(db, size, r); }
    BatchIsUpcoming(db, size, 0);
    ListOverflowsIff(db, ids);
    if ids == [] { assert forall r :: !Upcoming(db, size, r); }
  }

  // ---- One statement ----

  /** A tracked event gets the number after the greatest in use, and overflows the
      index exactly when the session's last item is in use. */
  lemma EventOverflowsIff(db: Db, e: int, ev: Event)
    requires Inv(db) && EventFits(db.t, e, ev)
    ensures var db' := InsertEvent(db, e, ev); var full := DocKey(ev.session, 0xFF_FFFF) in db.docs;
            && (db'.st.overflowed <==> db.st.overflowed || (db.triggers && full))
            && (db.triggers && !db.st.overflowed && full ==> db'.st.overflowSession == ev.session)
            && (!db.triggers || db'.st.overflowed ==> db'.docs == db.docs && db'.eventDoc == db.eventDoc)
            && (db.triggers && !db'.st.overflowed ==>
                  var k := DocKey(ev.session, Max(ItemsOf(db.docs, ev.session) + {10_001}) + 1);
                  db'.docs == db.docs[k := EventBody(ev)] && db'.eventDoc == db.eventDoc[e := k])
  {
    hide Inv, HasRoom, TopItem, ItemsOf, PutEvent, EventBody;
    RoomIff(db, ev.session);
    TopIsMax(db.docs, ev.session);
    var db' := InsertEvent(db, e, ev);
    if db.triggers && !HasRoom(db, ev.session) { assert db' == Overflow(db.(t := PutEvent(db.t, e, ev)), ev.session); }
  }

  /** The like for a log of a session; a service log leaves the index alone. */
  lemma LogOverflowsIff(db: Db, l: int, lg: Log)
    requires Inv(db) && LogFits(db.t, l, lg)
    ensures var db' := InsertLog(db, l, lg);
            match lg.session
            case None => db' == db.(t := PutLog(db.t, l, lg))
            case Some(r) =>
              var full := DocKey(r, 0xFF_FFFF) in db.docs;
              && (db'.st.overflowed <==> db.st.overflowed || (db.triggers && full))
              && (db.triggers && !db.st.overflowed && full ==> db'.st.overflowSession == r)
              && (!db.triggers || db'.st.overflowed ==> db'.docs == db.docs && db'.logDoc == db.logDoc)
              && (db.triggers && !db'.st.overflowed ==>
                    var k := DocKey(r, Max(ItemsOf(db.docs, r) + {10_001}) + 1);
                    db'.docs == db.docs[k := LogBody(lg)] && db'.logDoc == db.logDoc[l := k])
  {
    hide Inv, HasRoom, TopItem, ItemsOf, PutLog, LogBody;
    if lg.session.Some? {
      RoomIff(db, lg.session.value);
      TopIsMax(db.docs, lg.session.value);
      var db' := InsertLog(db, l, lg);
      if db.triggers && !HasRoom(db, lg.session.value) { assert db' == Overflow(db.(t := PutLog(db.t, l, lg)), lg.session.value); }
    }
  }

  /** There is room exactly short of an overflow and with the last item free. */
  lemma RoomIff(db: Db, r: int)
    requires Inv(db)
    ensures db.triggers ==> (HasRoom(db, r) <==> !db.st.overflowed && DocKey(r, 0xFF_FFFF) !in db.docs)
  {
    hide Inv;
    if db.triggers {
      ItemsBounded(db, r);
      var items := ItemsOf(db.docs, r);
      assert DocKey(r, 0xFF_FFFF) in db.docs <==> DocKey(r, 0xFF_FFFF) in db.docs.Keys;
      if DocKey(r, 0xFF_FFFF) in db.docs.Keys { assert 0xFF_FFFF in items; }
      if 0xFF_FFFF in items {
        var k :| k in db.docs.Keys && k.session == r && k.item == 0xFF_FFFF;
        assert k == DocKey(r, 0xFF_FFFF);
      }
    }
  }

  lemma ItemsBounded(db: Db, r: int)
    requires Inv(db) && db.triggers
    ensures forall x :: x in ItemsOf(db.docs, r) ==> x <= 0xFF_FFFF
  {
    LiveSound(db);
    hide Inv;
    forall x | x in ItemsOf(db.docs, r) ensures x <= 0xFF_FFFF {
      var k :| k in db.docs.Keys && k.session == r && k.item == x;
      assert DocOk(db, k);
    }
  }

  lemma LiveSound(db: Db)
    requires Inv(db) && db.triggers
    ensures Sound(db)
  {
    hide TablesOk, Sound, EventsMapped, LogsMapped, Complete, NotEarly, CutoffsOk;
  }

  // ---- Any step ----

  /** The step asks for an item number that the range does not have. */
  predicate Short(db: Db, step: Step) {
    match step
    case EventIn(_, ev) => db.triggers && DocKey(ev.session, 0xFF_FFFF) in db.docs
    case LogIn(_, lg) => db.triggers && lg.session.Some? && DocKey(lg.session.value, 0xFF_FFFF) in db.docs
    case Work(enabled, busy, size, _) =>
      && !db.st.failed && db.st.phase == Building && enabled && !busy
      && exists r :: r in db.t.sessions && Upcoming(db, size, r) && Needed(db, r) > 0xFF_FFFF
    case _ => false
  }

  /** The step clears the flag: a build starts, or the last of an index is dropped. */
  predicate Restarts(db: Db, step: Step) {
    && step.Work? && !db.st.failed
    && ((db.st.phase == Off && step.enabled) || (db.st.phase == Dropping && !step.busy && db.docs == map[]))
  }

  /** After any step the index counts as overflowed exactly when the step was short of
      an item, or it was overflowed before and the step did not start afresh. */
  lemma StepOverflowsIff(db: Db, step: Step)
    requires Inv(db) && Enabled(db, step)
    ensures TablesOk(db.t)
    ensures Apply(db, step).st.overflowed <==> Short(db, step) || (db.st.overflowed && !Restarts(db, step))
  {
    hide Inv, TablesOk, SessionFits, PageFits, EventFits, LogFits, UpdatePage, UpdateSession;
    hide InsertEvent, InsertLog, RunStep, DeleteSession;
    InvTables(db);
    match step
    case SessionOut(r) => OutFrame(db, r);
    case EventIn(e, ev) => EventOverflowsIff(db, e, ev);
    case LogIn(l, lg) => LogOverflowsIff(db, l, lg);
    case Work(enabled, busy, size, rows) => WorkOverflowsIff(db, enabled, busy, size, rows);
    case SessionUp(r, s) => UpdateFrame(db, r, s);
    case PageUp(p, url, title) => UpdatePageFrame(db, p, url, title);
    case _ =>
  }

  lemma WorkOverflowsIff(db: Db, enabled: bool, busy: bool, size: nat, rows: nat)
    requires Inv(db) && TablesOk(db.t) && size > 0 && rows > 0
    ensures RunStep(db, enabled, busy, size, rows).0.st.overflowed <==>
              Short(db, Work(enabled, busy, size, rows)) || (db.st.overflowed && !Restarts(db, Work(enabled, busy, size, rows)))
  {
    hide Inv, TablesOk, BuildBatch, Needed, Upcoming, LowestDocs;
    PresentWhile(db);
    if db.st.phase == Building {
      BatchOverflowsIff(db, size);
      UpcomingIn(db, size);
    }
  }

  lemma UpcomingIn(db: Db, size: nat)
    ensures forall r :: Upcoming(db, size, r) ==> r in db.t.sessions
  {}

  lemma PresentWhile(db: Db)
    requires Inv(db)
    ensures db.present <==> db.st.phase != Off
    ensures db.st.phase == Off ==> db.docs == map[]
  {
    hide TablesOk, LiveOk;
  }

  // ---- Runs ----

  /** Each state is what the step made of the one before. */
  ghost predicate StepsFrom(db: nat -> Db, step: nat -> Step, n: nat) {
    forall i: nat :: i >= n ==> TablesOk(db(i).t) && Enabled(db(i), step(i)) && db(i + 1) == Apply(db(i), step(i))
  }

  ghost predicate KeptOn(db: nat -> Db, step: nat -> Step, i: nat, m: nat) {
    forall j: nat :: i <= j < m ==> !Restarts(db(j), step(j))
  }

  /** Over any run the index counts as overflowed exactly when it did before, or some
      step was short of an item, and nothing started afresh since. */
  lemma {:induction false} RunOverflowsIff(db: nat -> Db, step: nat -> Step, n: nat, m: nat)
    requires StepsFrom(db, step, n) && Inv(db(n)) && n <= m
    ensures Inv(db(m))
    ensures db(m).st.overflowed <==>
              || (db(n).st.overflowed && KeptOn(db, step, n, m))
              || exists i: nat :: n <= i < m && Short(db(i), step(i)) && KeptOn(db, step, i + 1, m)
    decreases m
  {
    hide Inv, TablesOk, Enabled, Apply, Short, Restarts;
    if n < m {
      var last := m - 1;
      RunOverflowsIff(db, step, n, last);
      ApplyKeeps(db(last), step(last));
      StepOverflowsIff(db(last), step(last));
      assert forall i: nat :: i <= last ==> (KeptOn(db, step, i, m) <==> KeptOn(db, step, i, last) && !Restarts(db(last), step(last)));
      assert KeptOn(db, step, m, m);
    }
  }

  /** An index that is off stays off until a build starts. */
  lemma {:induction false} OffUntilBuilt(db: nat -> Db, step: nat -> Step, n: nat, m: nat)
    requires StepsFrom(db, step, n) && Inv(db(n)) && n <= m && db(n).st.phase == Off && KeptOn(db, step, n, m)
    ensures Inv(db(m)) && db(m).st.phase == Off
    decreases m
  {
    hide Inv, TablesOk, Enabled, Apply, Restarts;
    if n < m {
      OffUntilBuilt(db, step, n, m - 1);
      ApplyKeeps(db(m - 1), step(m - 1));
      OffStays(db(m - 1), step(m - 1));
    }
  }

  lemma OffStays(db: Db, step: Step)
    requires Inv(db) && TablesOk(db.t) && Enabled(db, step) && db.st.phase == Off && !Restarts(db, step)
    ensures Apply(db, step).st.phase == Off
  {
    hide Inv, TablesOk, SessionFits, PageFits, EventFits, LogFits, InsertEvent, InsertLog, DeleteSession, UpdatePage, UpdateSession;
    match step
    case SessionOut(r) => OutFrame(db, r);
    case EventIn(e, ev) => EventInFrame(db, e, ev);
    case LogIn(l, lg) => LogInFrame(db, l, lg);
    case SessionUp(r, s) => UpdateFrame(db, r, s);
    case PageUp(p, url, title) => UpdatePageFrame(db, p, url, title);
    case _ =>
  }

  lemma OutFrame(db: Db, r: int)
    ensures DeleteSession(db, r).st.phase == db.st.phase && DeleteSession(db, r).st.overflowed == db.st.overflowed
  {}

  /** Nothing a steady run does changes the setting. */
  lemma {:induction false} SettingKept(db: nat -> Db, step: nat -> Step, n: nat, m: nat)
    requires SteadyRun(db, step) && Inv(db(n)) && !db(n).st.failed && n <= m
    ensures Inv(db(m)) && !db(m).st.failed && db(m).st.enabled == db(n).st.enabled
    decreases m
  {
    hide Inv, TablesOk, Enabled, Steady, Apply;
    if n < m {
      SettingKept(db, step, n, m - 1);
      ApplyKeeps(db(m - 1), step(m - 1));
      SteadyDescends(db(m - 1), step(m - 1));
    }
  }

  /** An endless fair run with the index switched on and room at every step comes to
      an index that answers the session list. */
  lemma RoomySettles(db: nat -> Db, step: nat -> Step, n: nat) returns (m: nat)
    requires SteadyRun(db, step) && Inv(db(n)) && !db(n).st.failed && db(n).st.enabled
    requires db(n).st.overflowed ==> db(n).st.phase == Off
    requires forall i: nat :: i >= n ==> !Short(db(i), step(i))
    ensures m >= n && db(m).st.phase == Ready && !db(m).st.overflowed && Exact(db(m))
  {
    hide Inv, TablesOk, Enabled, Apply, Short, Restarts, Exact, KeptOn;
    m := Settles(db, step, n);
    SettingKept(db, step, n, m);
    assert StepsFrom(db, step, n);
    RunOverflowsIff(db, step, n, m);
    if db(n).st.phase == Off && KeptOn(db, step, n, m) { OffUntilBuilt(db, step, n, m); }
    ReadyIsExact(db(m));
  }

  // ---- A build nobody disturbs ----

  /** What a session has to fit into its range. */
  function Activity(t: Store, r: int): nat {
    |set e | e in t.events && t.events[e].session == r| + |set l | l in t.logs && t.logs[l].session == Some(r)|
  }

  /** Nothing was written since the build began. */
  ghost predicate Quiet(db: Db) {
    && (forall r :: r in db.t.sessions ==> r <= db.st.cutSessions)
    && (forall e :: e in db.t.events ==> e <= db.st.cutEvents)
    && (forall l :: l in db.t.logs ==> l <= db.st.cutLogs)
  }

  /** Then a session still to come needs room for its own events and logs and no more. */
  lemma QuietNeeded(db: Db, r: int)
    requires Inv(db) && db.st.phase == Building && Quiet(db) && r in db.t.sessions && db.st.next < r
    ensures Needed(db, r) == 10_001 + Activity(db.t, r)
  {
    hide Inv, Used;
    UsedLow(db, r);
    assert OwnEvents(db, r) == set e | e in db.t.events && db.t.events[e].session == r;
    assert OwnLogs(db, r) == set l | l in db.t.logs && db.t.logs[l].session == Some(r);
    MaxOnly(Used(db, r) + {10_001}, 10_001);
  }

  lemma UsedLow(db: Db, r: int)
    requires Inv(db) && db.st.phase == Building && Quiet(db) && db.st.next < r
    ensures forall x :: x in Used(db, r) ==> x <= 10_001
  {
    hide Inv;
    LiveMaps(db);
    PageItemsLow(db, r);
    hide PageItems;
    forall x | x in Used(db, r) ensures x <= 10_001 {
      if k :| k in db.docs.Keys && k.session == r && k.item == x { ItemLow(db, k); }
    }
  }

  lemma PageItemsLow(db: Db, r: int)
    requires Inv(db)
    ensures forall x :: x in PageItems(db, r) ==> x <= 10_001
  {
    InvTables(db);
    hide Inv;
  }

  lemma ItemLow(db: Db, k: DocKey)
    requires EventsMapped(db) && LogsMapped(db) && Sound(db) && NotEarly(db) && db.st.phase == Building && Quiet(db)
    requires k in db.docs && db.st.next < k.session
    ensures k.item <= 10_001
  {
    assert DocOk(db, k);
  }

  /** A batch takes the sessions left up to its last one. */
  lemma BatchSplits(db: Db, size: nat, r: int)
    requires Batch(db, size) != []
    ensures var ids := Batch(db, size);
            r in RemainingSessions(db.t, db.st.next, db.st.cutSessions) <==>
              r in ids || r in RemainingSessions(db.t, ids[|ids| - 1], db.st.cutSessions)
    ensures Batch(db, size)[|Batch(db, size)| - 1] > db.st.next
    ensures r in Batch(db, size) ==> r !in RemainingSessions(db.t, Batch(db, size)[|Batch(db, size)| - 1], db.st.cutSessions)
  {
    var left, ids := RemainingSessions(db.t, db.st.next, db.st.cutSessions), Batch(db, size);
    BatchMembers(db, size);
    SortedPrefix(left, |ids|);
    assert ids == Sorted(left)[..|ids|];
  }

  ghost predicate Over(t: Store, r: int) {
    10_001 + Activity(t, r) > 0xFF_FFFF
  }

  ghost predicate SomeoneOver(db: Db) {
    exists r :: r in RemainingSessions(db.t, db.st.next, db.st.cutSessions) && Over(db.t, r)
  }

  predicate Turns(steps: seq<Step>) {
    forall i :: 0 <= i < |steps| ==> steps[i].Work? && steps[i].enabled
  }

  lemma QuietBatch(db: Db, size: nat)
    requires Inv(db) && TablesOk(db.t) && db.st.phase == Building && Quiet(db) && size > 0
    ensures var db' := BuildBatch(db, size);
            && (db'.st.phase == Building || db'.st.phase == Ready) && Quiet(db')
            && db'.st.enabled == db.st.enabled && db'.st.failed == db.st.failed
            && (db'.st.phase == Building ==> (db'.st.overflowed || SomeoneOver(db') <==> db.st.overflowed || SomeoneOver(db)))
            && (db'.st.phase == Ready ==> (db'.st.overflowed <==> db.st.overflowed || SomeoneOver(db)))
  {
    hide Inv, TablesOk, IndexSessions, Batch, Needed, Upcoming, Over, RemainingSessions;
    var ids := Batch(db, size);
    BatchOverflowsIff(db, size);
    BatchMembers(db, size);
    BatchFrameOf(db, ids);
    forall r ensures r in ids <==> Upcoming(db, size, r) { BatchIsUpcoming(db, size, r); }
    forall r | r in RemainingSessions(db.t, db.st.next, db.st.cutSessions) ensures Needed(db, r) > 0xFF_FFFF <==> Over(db.t, r) {
      QuietOver(db, r);
    }
    forall r | Upcoming(db, size, r) ensures r in RemainingSessions(db.t, db.st.next, db.st.cutSessions) {}
    if ids == [] {
      NoneLeft(db, size);
    } else {
      forall r ensures r in RemainingSessions(db.t, db.st.next, db.st.cutSessions) <==>
                 r in ids || r in RemainingSessions(db.t, ids[|ids| - 1], db.st.cutSessions)
      { BatchSplits(db, size, r); }
    }
  }

  lemma QuietOver(db: Db, r: int)
    requires Inv(db) && db.st.phase == Building && Quiet(db) && r in RemainingSessions(db.t, db.st.next, db.st.cutSessions)
    ensures Needed(db, r) > 0xFF_FFFF <==> Over(db.t, r)
  {
    hide Inv, Needed;
    QuietNeeded(db, r);
  }

  lemma NoneLeft(db: Db, size: nat)
    requires Batch(db, size) == [] && size > 0
    ensures RemainingSessions(db.t, db.st.next, db.st.cutSessions) == {}
  {}

  /** A build during which nothing is written ends overflowed exactly when some session
      it still had to come to has more events and logs than fit. */
  lemma {:induction false} QuietBuild(db: Db, steps: seq<Step>)
    requires Inv(db) && TablesOk(db.t) && IsRun(db, steps) && Turns(steps)
    requires (db.st.phase == Building || db.st.phase == Ready) && Quiet(db) && db.st.enabled && !db.st.failed
    ensures After(db, steps).st.phase == Ready ==>
              (After(db, steps).st.overflowed <==> db.st.overflowed || (db.st.phase == Building && SomeoneOver(db)))
    decreases |steps|
  {
    hide Inv, TablesOk, BuildBatch, Quiet, SomeoneOver;
    if steps != [] {
      var step, db' := steps[0], Apply(db, steps[0]);
      assert Turns(steps[1..]);
      ApplyKeeps(db, step);
      InvTables(db');
      if db.st.phase == Building && !step.busy { QuietBatch(db, step.size); }
      QuietBuild(db', steps[1..]);
    }
  }

  lemma StartIsQuiet(db: Db)
    requires Inv(db) && db.st.phase == Off
    ensures var db' := StartBuild(db);
            && Quiet(db') && db'.st.phase == Building && !db'.st.overflowed && !db'.st.failed && db'.st.enabled == db.st.enabled
            && (SomeoneOver(db') <==> exists r :: r in db.t.sessions && Over(db.t, r))
  {
    InvTables(db);
    hide Inv, Over;
    StartCutoffs(db);
    hide HighestRow, TablesOk, CutoffsOk;
    var db' := StartBuild(db);
    assert RemainingSessions(db'.t, db'.st.next, db'.st.cutSessions) == db.t.sessions.Keys;
  }

  /** Built in one go from nothing, the index ends up usable exactly when every session
      has room for its events and logs. */
  lemma {:induction false} UndisturbedBuild(db: Db, steps: seq<Step>)
    requires Inv(db) && TablesOk(db.t) && db.st.phase == Off && db.st.enabled && !db.st.failed && IsRun(db, steps) && Turns(steps)
    ensures After(db, steps).st.phase == Ready ==>
              (!After(db, steps).st.overflowed <==> forall r :: r in db.t.sessions ==> 10_001 + Activity(db.t, r) <= 0xFF_FFFF)
  {
    hide Inv, TablesOk, StartBuild, Quiet, SomeoneOver;
    if steps != [] {
      var db' := Apply(db, steps[0]);
      assert db' == StartBuild(db);
      assert Turns(steps[1..]);
      ApplyKeeps(db, steps[0]);
      InvTables(db');
      StartIsQuiet(db);
      QuietBuild(db', steps[1..]);
    }
  }

  // ---- What building one session writes ----

  /** Which of a set's members, counted from one. */
  function Rank(s: set<int>, x: int): nat {
    |set y | y in s && y <= x|
  }

  lemma RankInOrder(rows: seq<int>, s: set<int>, i: nat)
    requires Increasing(rows) && i < |rows| && forall x :: x in rows <==> x in s
    ensures Rank(s, rows[i]) == i + 1
  {
    EarlierCount(rows, i);
    var early := set x | x in rows[..i];
    assert (set y | y in s && y <= rows[i]) == early + {rows[i]} by {
      forall y ensures y in s && y <= rows[i] <==> y in early || y == rows[i] {
        assert y in early <==> y in rows[..i];
        assert rows[i] in rows;
      }
    }
    assert rows[i] !in early by { assert rows[i] !in rows[..i]; }
  }

  lemma FittingIs(db: Db, r: int)
    requires TablesOk(db.t) && r in db.t.sessions && Needed(db, r) <= 0xFF_FFFF
    ensures Increasing(OldEventRows(db, r)) && RowsIn(OldEventRows(db, r), db.t.events)
    ensures Increasing(OldLogRows(db, r)) && RowsIn(OldLogRows(db, r), db.t.logs)
    ensures |OldEventRows(db, r)| == |OwnEvents(db, r)|
    ensures var top := Max(Used(db, r) + {10_001}); var evs, lgs := OldEventRows(db, r), OldLogRows(db, r);
            IndexSession(db, r) == AddLogs(AddEvents(WithStatic(db, r), r, top, evs), r, top + |evs|, lgs)
  {
    hide TablesOk, OldEvents, OldLogs, StaticDocs, Used, OwnEvents, OwnLogs, TopItem, AddEvents, AddLogs, RowsIn, Increasing;
    OldRowsFit(db, r);
    OldCounts(db, r);
    StaticItems(db, r);
    TopIsMax(WithStatic(db, r).docs, r);
  }

  lemma OwnRows(db: Db, r: int)
    ensures forall e :: e in OldEventRows(db, r) <==> e in OwnEvents(db, r)
    ensures forall l :: l in OldLogRows(db, r) <==> l in OwnLogs(db, r)
  {}

  lemma RankedSlots(r: int, top: int, rows: seq<int>, s: set<int>)
    requires Increasing(rows) && forall x :: x in rows <==> x in s
    ensures forall x :: x in Slots(r, top, rows) <==> x in s
    ensures forall x :: x in s ==> Slots(r, top, rows)[x] == DocKey(r, top + Rank(s, x))
  {
    hide Slots, Increasing, Rank;
    SlotsAre(r, top, rows);
    forall x | x in s ensures Slots(r, top, rows)[x] == DocKey(r, top + Rank(s, x)) {
      var i :| 0 <= i < |rows| && rows[i] == x;
      RankInOrder(rows, s, i);
    }
  }

  /** A session that fits has its old events numbered on from the greatest item in
      use, in the order of their rows, and no other event is mapped anew. */
  lemma BuiltEvents(db: Db, r: int)
    requires TablesOk(db.t) && r in db.t.sessions && Needed(db, r) <= 0xFF_FFFF
    ensures var mapped := IndexSession(db, r).eventDoc;
            && (forall e :: e in mapped <==> e in db.eventDoc || e in OwnEvents(db, r))
            && (forall e :: e in OwnEvents(db, r) ==> mapped[e] == DocKey(r, Max(Used(db, r) + {10_001}) + Rank(OwnEvents(db, r), e)))
            && (forall e :: e in db.eventDoc && e !in OwnEvents(db, r) ==> mapped[e] == db.eventDoc[e])
  {
    hide TablesOk, OldEventRows, OldLogRows, Used, OwnEvents, OwnLogs, Slots, RowsIn, Increasing, Rank, IndexSession, Needed, AddEvents, AddLogs, StaticDocs;
    FittingIs(db, r);
    OwnRows(db, r);
    var top, evs, lgs := Max(Used(db, r) + {10_001}), OldEventRows(db, r), OldLogRows(db, r);
    hide Max;
    MapsAfter(WithStatic(db, r), r, top, evs, lgs);
    RankedSlots(r, top, evs, OwnEvents(db, r));
    JoinedMap(db.eventDoc, Slots(r, top, evs), OwnEvents(db, r));
  }

  /** And its old logs after those. */
  lemma BuiltLogs(db: Db, r: int)
    requires TablesOk(db.t) && r in db.t.sessions && Needed(db, r) <= 0xFF_FFFF
    ensures var mapped := IndexSession(db, r).logDoc; var top := Max(Used(db, r) + {10_001}) + |OwnEvents(db, r)|;
            && (forall l :: l in mapped <==> l in db.logDoc || l in OwnLogs(db, r))
            && (forall l :: l in OwnLogs(db, r) ==> mapped[l] == DocKey(r, top + Rank(OwnLogs(db, r), l)))
            && (forall l :: l in db.logDoc && l !in OwnLogs(db, r) ==> mapped[l] == db.logDoc[l])
  {
    hide TablesOk, OldEventRows, OldLogRows, Used, OwnEvents, OwnLogs, Slots, RowsIn, Increasing, Rank, IndexSession, Needed, AddEvents, AddLogs, StaticDocs;
    FittingIs(db, r);
    OwnRows(db, r);
    var top, evs, lgs := Max(Used(db, r) + {10_001}), OldEventRows(db, r), OldLogRows(db, r);
    hide Max;
    MapsAfter(WithStatic(db, r), r, top, evs, lgs);
    RankedSlots(r, top + |evs|, lgs, OwnLogs(db, r));
    JoinedMap(db.logDoc, Slots(r, top + |evs|, lgs), OwnLogs(db, r));
  }

  lemma MapsAfter(db: Db, r: int, top: int, evs: seq<int>, lgs: seq<int>)
    requires Increasing(evs) && Increasing(lgs) && RowsIn(evs, db.t.events) && RowsIn(lgs, db.t.logs)
    ensures var db' := AddLogs(AddEvents(db, r, top, evs), r, top + |evs|, lgs);
            db'.eventDoc == db.eventDoc + Slots(r, top, evs) && db'.logDoc == db.logDoc + Slots(r, top + |evs|, lgs)
  {
    hide Numbered, Slots, Taken, EventBodies, LogBodies;
  }

  lemma JoinedMap(m: map<int, DocKey>, more: map<int, DocKey>, s: set<int>)
    requires forall x :: x in more <==> x in s
    ensures forall x :: x in m + more <==> x in m || x in s
    ensures forall x :: x in s ==> (m + more)[x] == more[x]
    ensures forall x :: x in m && x !in s ==> (m + more)[x] == m[x]
  {
  }
}
