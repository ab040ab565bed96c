/** The optional full-text index over recorded sessions: its documents, the
    triggers that keep them in step with the tables, and the background worker
    that builds and drops it while ingest goes on. Every function here is one
    committed SQL transaction. */
module SearchIndex {
  import opened Rows
  import opened Tables

  const ITEM_FIRST_DYNAMIC := 10_002
  const ITEM_MAX := 0xFF_FFFF
  const ITEM_SPAN := 0x100_0000

  /** An index rowid: 24 low bits number the items of one session. */
  datatype DocKey = DocKey(session: int, item: int)

  function Pack(k: DocKey): int {
    k.session * ITEM_SPAN + k.item
  }

  /** The fields a document's text joins with blanks. */
  datatype Body = Two(first: string, second: string) | Three(first: string, second: string, third: string)

  datatype Phase = Off | Building | Ready | Dropping

  /** The single row of session_search_state. */
  datatype State = State(
    enabled: bool,
    phase: Phase,
    failed: bool,
    cutPages: int,
    cutEvents: int,
    cutLogs: int,
    cutSessions: int,
    next: int,
    done: int,
    total: int,
    overflowed: bool,
    overflowSession: int)

  /** `clash` records whether an insert ever met an index rowid or a log number
      that was already taken. `eventDoc` is a history variable the database does
      not store: the document each tracked event was indexed under. */
  datatype Db = Db(
    t: Store,
    present: bool,
    triggers: bool,
    docs: map<DocKey, Body>,
    logDoc: map<int, DocKey>,
    eventDoc: map<int, DocKey>,
    clash: bool,
    st: State)

  const Idle := State(false, Off, false, 0, 0, 0, 0, 0, 0, 0, false, 0)
  const Fresh := Db(EmptyStore, false, false, map[], map[], map[], false, Idle)

  // ---- Document bodies ----

  function SessionBody(s: Session): Body { Two(s.initialUrl, s.exitUrl) }
  function PageBody(p: Page): Body { Two(p.url, p.title) }
  function EventBody(e: Event): Body { Two(e.name, e.trackId) }
  function LogBody(l: Log): Body { Three(l.message, l.url, l.severity) }

  function PageKey(p: Page): DocKey { DocKey(p.session, p.idx + 1) }

  // ---- Allocation of event and log items ----

  function ItemsOf(docs: map<DocKey, Body>, r: int): set<int> {
    set k | k in docs.Keys && k.session == r :: k.item
  }

  /** COALESCE(MAX(rowid), base + 10001) over the session's range. */
  function HighestItem(docs: map<DocKey, Body>, r: int): int {
    var items := ItemsOf(docs, r);
    if items == {} then ITEM_FIRST_DYNAMIC - 1 else Max(items)
  }

  /** The greatest item in use, never below the last page item. */
  function TopItem(docs: map<DocKey, Body>, r: int): int {
    var h := HighestItem(docs, r);
    if h < ITEM_FIRST_DYNAMIC - 1 then ITEM_FIRST_DYNAMIC - 1 else h
  }

  function Put(db: Db, k: DocKey, body: Body): Db {
    db.(docs := db.docs[k := body], clash := db.clash || k in db.docs)
  }

  /** DELETE, then INSERT under the same rowid. */
  function Replace(db: Db, k: DocKey, body: Body): Db {
    db.(docs := db.docs[k := body])
  }

  // ---- Ingest and deletion, with their triggers ----

  function InsertSession(db: Db, r: int, s: Session): (db': Db)
    ensures db'.t == PutSession(db.t, r, s)
  {
    var db1 := db.(t := PutSession(db.t, r, s));
    if db.triggers then Put(db1, DocKey(r, 0), SessionBody(s)) else db1
  }

  function UpdateSession(db: Db, r: int, s: Session): (db': Db)
    requires r in db.t.sessions
    ensures db'.t == PutSession(db.t, r, s)
  {
    var was := db.t.sessions[r];
    var db1 := db.(t := PutSession(db.t, r, s));
    if db.triggers && (was.initialUrl != s.initialUrl || was.exitUrl != s.exitUrl) then
      Replace(db1, DocKey(r, 0), SessionBody(s))
    else db1
  }

  function RemainingSessions(t: Store, next: int, cut: int): set<int> {
    set r | r in t.sessions && next < r <= cut
  }

  /** The documents mapped to these logs. */
  function DocsOf(logDoc: map<int, DocKey>, logs: set<int>): set<DocKey> {
    set l | l in logs && l in logDoc :: logDoc[l]
  }

  /** The documents in a session's rowid range. */
  function RangeOf(docs: map<DocKey, Body>, r: int): set<DocKey> {
    set k | k in docs && k.session == r
  }

  /** Foreign keys remove the children first, firing the log trigger for each;
      the session trigger then clears the whole range. */
  function DeleteSession(db: Db, r: int): (db': Db)
    ensures db'.t == DropSession(db.t, r)
  {
    var t := db.t;
    var logs := LogsOf(t, r);
    var t1 := DropSession(t, r);
    if !db.triggers then db.(t := t1) else
      var counted := db.st.phase == Building && db.st.next < r <= db.st.cutSessions;
      var total := if !counted then db.st.total
                   else if db.st.total - 1 < db.st.done then db.st.done else db.st.total - 1;
      db.(t := t1, docs := db.docs - DocsOf(db.logDoc, logs) - RangeOf(db.docs, r), logDoc := db.logDoc - logs,
          eventDoc := db.eventDoc - EventsOf(t, r), st := db.st.(total := total))
  }

  function InsertPage(db: Db, p: int, page: Page): (db': Db)
    ensures db'.t == PutPage(db.t, p, page)
  {
    var db1 := db.(t := PutPage(db.t, p, page));
    if db.triggers then Put(db1, PageKey(page), PageBody(page)) else db1
  }

  function UpdatePage(db: Db, p: int, url: string, title: string): (db': Db)
    requires p in db.t.pages
    ensures db'.t == PutPage(db.t, p, db.t.pages[p].(url := url, title := title))
  {
    var was := db.t.pages[p];
    var page := was.(url := url, title := title);
    var db1 := db.(t := PutPage(db.t, p, page));
    if db.triggers && was != page then
      Replace(db1, PageKey(page), PageBody(page))
    else db1
  }

  predicate HasRoom(db: Db, r: int) {
    !db.st.overflowed && HighestItem(db.docs, r) < ITEM_MAX
  }

  function Overflow(db: Db, r: int): Db {
    if db.st.overflowed then db
    else db.(st := db.st.(overflowed := true, overflowSession := r))
  }

  function InsertEvent(db: Db, e: int, ev: Event): (db': Db)
    ensures db'.t == PutEvent(db.t, e, ev)
  {
    var db1 := db.(t := PutEvent(db.t, e, ev));
    if !db.triggers then db1
    else if HasRoom(db, ev.session) then
      var k := DocKey(ev.session, TopItem(db.docs, ev.session) + 1);
      Put(db1, k, EventBody(ev)).(eventDoc := db.eventDoc[e := k])
    else Overflow(db1, ev.session)
  }

  function InsertLog(db: Db, l: int, lg: Log): (db': Db)
    ensures db'.t == PutLog(db.t, l, lg)
  {
    var db1 := db.(t := PutLog(db.t, l, lg));
    if !db.triggers || lg.session.None? then db1
    else if HasRoom(db, lg.session.value) then
      var k := DocKey(lg.session.value, TopItem(db.docs, lg.session.value) + 1);
      var db2 := Put(db1, k, LogBody(lg));
      db2.(logDoc := db.logDoc[l := k], clash := db2.clash || l in db.logDoc)
    else Overflow(db1, lg.session.value)
  }

  function DeleteLog(db: Db, l: int): (db': Db)
    ensures db'.t == DropLog(db.t, l)
  {
    var db1 := db.(t := DropLog(db.t, l));
    if db.triggers && l in db.t.logs && db.t.logs[l].session.Some? && l in db.logDoc then
      db1.(docs := db.docs - {db.logDoc[l]}, logDoc := db.logDoc - {l})
    else db1
  }

  // ---- The worker ----

  function HighestRow<T>(rows: map<int, T>): int {
    if rows == map[] then 0 else Max(rows.Keys)
  }

  function StartBuild(db: Db): (db': Db)
    ensures db'.t == db.t
  {
    var t := db.t;
    db.(present := true, triggers := true, eventDoc := map[],
        docs := if db.present then db.docs else map[],
        logDoc := if db.present then db.logDoc else map[],
        st := State(db.st.enabled, Building, false,
                    HighestRow(t.pages), HighestRow(t.events), HighestRow(t.logs), HighestRow(t.sessions),
                    0, 0, |t.sessions|, false, 0))
  }

  function OldPages(t: Store, cut: int, r: int): set<int> {
    set p | p in PagesOf(t, r) && p <= cut
  }

  function OldEvents(t: Store, cut: int, r: int): (rows: seq<int>)
    ensures Increasing(rows)
    ensures forall e :: e in rows <==> e in t.events && t.events[e].session == r && e <= cut
  {
    Sorted(set e | e in EventsOf(t, r) && e <= cut)
  }

  function OldLogs(t: Store, cut: int, r: int): (rows: seq<int>)
    ensures Increasing(rows)
    ensures forall l :: l in rows <==> l in t.logs && t.logs[l].session == Some(r) && l <= cut
  {
    Sorted(set l | l in LogsOf(t, r) && l <= cut)
  }

  function PageDocs(t: Store, cut: int, r: int): map<DocKey, Body>
    requires TablesOk(t)
  {
    map p | p in OldPages(t, cut, r) :: PageKey(t.pages[p]) := PageBody(t.pages[p])
  }

  /** The session and page documents a build batch rewrites for one session. */
  function StaticDocs(t: Store, cut: int, r: int): map<DocKey, Body>
    requires r in t.sessions && TablesOk(t)
  {
    PageDocs(t, cut, r)[DocKey(r, 0) := SessionBody(t.sessions[r])]
  }

  /** Documents for consecutive items after `top`, in the order of the rows. */
  function Numbered(r: int, top: int, bodies: seq<Body>): map<DocKey, Body> {
    map i | 0 <= i < |bodies| :: DocKey(r, top + 1 + i) := bodies[i]
  }

  /** One of the n rowids after `top` is in use already. */
  predicate Taken(docs: map<DocKey, Body>, r: int, top: int, n: nat) {
    exists k :: k in docs && k.session == r && top < k.item <= top + n
  }

  function Slots(r: int, top: int, rows: seq<int>): map<int, DocKey>
    requires Increasing(rows)
  {
    map i | 0 <= i < |rows| :: rows[i] := DocKey(r, top + 1 + i)
  }

  function EventBodies(t: Store, rows: seq<int>): (bodies: seq<Body>)
    requires RowsIn(rows, t.events)
  {
    seq(|rows|, i requires 0 <= i < |rows| => EventBody(t.events[rows[i]]))
  }

  function LogBodies(t: Store, rows: seq<int>): (bodies: seq<Body>)
    requires RowsIn(rows, t.logs)
  {
    seq(|rows|, i requires 0 <= i < |rows| => LogBody(t.logs[rows[i]]))
  }

  /** What one build batch does for one session. */
  function IndexSession(db: Db, r: int): (db': Db)
    requires r in db.t.sessions && TablesOk(db.t)
    ensures db'.t == db.t
  {
    hide TablesOk, StaticDocs;
    IndexDynamic(db.(docs := db.docs + StaticDocs(db.t, db.st.cutPages, r)), r,
                 OldEvents(db.t, db.st.cutEvents, r), OldLogs(db.t, db.st.cutLogs, r))
  }

  predicate RowsIn<T>(rows: seq<int>, table: map<int, T>) {
    forall i :: 0 <= i < |rows| ==> rows[i] in table
  }

  function AddEvents(db: Db, r: int, top: int, rows: seq<int>): (db': Db)
    requires Increasing(rows) && RowsIn(rows, db.t.events)
    ensures db'.t == db.t
  {
    db.(docs := db.docs + Numbered(r, top, EventBodies(db.t, rows)), eventDoc := db.eventDoc + Slots(r, top, rows),
        clash := db.clash || Taken(db.docs, r, top, |rows|))
  }

  function AddLogs(db: Db, r: int, top: int, rows: seq<int>): (db': Db)
    requires Increasing(rows) && RowsIn(rows, db.t.logs)
    ensures db'.t == db.t
  {
    db.(docs := db.docs + Numbered(r, top, LogBodies(db.t, rows)), logDoc := db.logDoc + Slots(r, top, rows),
        clash := db.clash || Taken(db.docs, r, top, |rows|) || exists l :: l in rows && l in db.logDoc)
  }

  /** The tracked events and logs of one session, unless they do not all fit. */
  function IndexDynamic(db: Db, r: int, evs: seq<int>, lgs: seq<int>): (db': Db)
    requires Increasing(evs) && Increasing(lgs) && RowsIn(evs, db.t.events) && RowsIn(lgs, db.t.logs)
    ensures db'.t == db.t
  {
    var top := TopItem(db.docs, r);
    if top + |evs| + |lgs| > ITEM_MAX then
      db.(st := db.st.(overflowed := true, overflowSession := r))
    else
      AddLogs(AddEvents(db, r, top, evs), r, top + |evs|, lgs)
  }

  function IndexSessions(db: Db, ids: seq<int>): (db': Db)
    requires TablesOk(db.t) && forall r :: r in ids ==> r in db.t.sessions
    ensures db'.t == db.t
    decreases |ids|
  {
    if ids == [] then db
    else
      var db1 := IndexSessions(db, ids[..|ids| - 1]);
      IndexSession(db1, ids[|ids| - 1])
  }

  /** The next sessions to index, in rowid order. */
  function Batch(db: Db, size: nat): (ids: seq<int>)
    ensures forall r :: r in ids ==> r in RemainingSessions(db.t, db.st.next, db.st.cutSessions)
  {
    var all := Sorted(RemainingSessions(db.t, db.st.next, db.st.cutSessions));
    if |all| <= size then all else all[..size]
  }

  function BuildBatch(db: Db, size: nat): (db': Db)
    requires TablesOk(db.t)
    ensures db'.t == db.t
  {
    var ids := Batch(db, size);
    if ids == [] then
      db.(st := db.st.(phase := Ready, total := |db.t.sessions|, done := |db.t.sessions|))
    else
      var db1 := IndexSessions(db, ids);
      db1.(st := db1.st.(next := ids[|ids| - 1], done := db1.st.done + |ids|))
  }

  function StartDrop(db: Db): Db {
    db.(triggers := false, st := db.st.(phase := Dropping, failed := false))
  }

  function FinishDrop(db: Db): Db {
    db.(st := Idle.(enabled := db.st.enabled))
  }

  /** The `rows` lowest index rowids. */
  function LowestDocs(docs: map<DocKey, Body>, rows: nat): set<DocKey> {
    var packed := Sorted(set k | k in docs.Keys :: Pack(k));
    var gone := if |packed| <= rows then packed else packed[..rows];
    set k | k in docs.Keys && Pack(k) in gone
  }

  function DropBatch(db: Db, rows: nat): (db': Db)
    ensures db'.t == db.t
  {
    if !db.present then FinishDrop(db)
    else if db.docs == map[] then FinishDrop(db.(present := false, docs := map[], logDoc := map[]))
    else db.(docs := db.docs - LowestDocs(db.docs, rows))
  }

  /** One worker step and whether the worker should come back unprompted.
      `enabled` is the setting as the worker read it, which a concurrent toggle
      may have overtaken; after a finished drop the setting read is the one that
      counts. `busy` stands for recent ingest or a loaded host. */
  function RunStep(db: Db, enabled: bool, busy: bool, size: nat, rows: nat): (out: (Db, bool))
    requires TablesOk(db.t)
    ensures out.0.t == db.t
  {
    if db.st.failed then (db, false) else
      match db.st.phase
      case Off => if enabled then (StartBuild(db), true) else (db, false)
      case Building =>
        if !enabled then (StartDrop(db), true)
        else if busy then (db, true)
        else var db1 := BuildBatch(db, size); (db1, db1.st.phase != Ready)
      case Ready => if enabled then (db, false) else (StartDrop(db), true)
      case Dropping =>
        if busy then (db, true)
        else var db1 := DropBatch(db, rows); (db1, db1.st.phase != Off || enabled)
  }

  function Toggle(db: Db, on: bool): Db {
    db.(st := db.st.(enabled := on, failed := false))
  }

  // ---- Runs ----

  datatype Step =
    | SessionIn(r: int, s: Session)
    | SessionUp(r: int, s: Session)
    | SessionOut(r: int)
    | PageIn(p: int, page: Page)
    | PageUp(p: int, url: string, title: string)
    | EventIn(e: int, ev: Event)
    | LogIn(l: int, lg: Log)
    | LogOut(l: int)
    | Switch(on: bool)
    | Work(enabled: bool, busy: bool, size: nat, rows: nat)
    | WorkFailed

  /** New rowids are above every rowid the table ever used; primary and unique
      keys, foreign keys and ingest's value checks admit the row. */
  predicate Enabled(db: Db, step: Step) {
    match step
    case SessionIn(r, s) => r > db.t.lastSession && SessionFits(db.t, r, s)
    case SessionUp(r, s) => r in db.t.sessions && SessionFits(db.t, r, s)
    case SessionOut(r) => r in db.t.sessions
    case PageIn(p, page) => p > db.t.lastPage && PageFits(db.t, p, page)
    case PageUp(p, _, _) => p in db.t.pages
    case EventIn(e, ev) => EventFits(db.t, e, ev)
    case LogIn(l, lg) => LogFits(db.t, l, lg)
    case LogOut(l) => l in db.t.logs
    case Switch(_) => true
    case Work(_, _, size, rows) => size > 0 && rows > 0
    case WorkFailed => true
  }

  function Apply(db: Db, step: Step): Db
    requires TablesOk(db.t) && Enabled(db, step)
  {
    match step
    case SessionIn(r, s) => InsertSession(db, r, s)
    case SessionUp(r, s) => UpdateSession(db, r, s)
    case SessionOut(r) => DeleteSession(db, r)
    case PageIn(p, page) => InsertPage(db, p, page)
    case PageUp(p, url, title) => UpdatePage(db, p, url, title)
    case EventIn(e, ev) => InsertEvent(db, e, ev)
    case LogIn(l, lg) => InsertLog(db, l, lg)
    case LogOut(l) => DeleteLog(db, l)
    case Switch(on) => Toggle(db, on)
    case Work(enabled, busy, size, rows) => RunStep(db, enabled, busy, size, rows).0
    case WorkFailed => db.(st := db.st.(failed := true))
  }

  /** Keys, references and value checks hold after every admitted step. */
  lemma ApplyKeepsTables(db: Db, step: Step)
    requires TablesOk(db.t) && Enabled(db, step)
    ensures TablesOk(Apply(db, step).t)
  {
    match step
    case SessionIn(r, s) => PutSessionOk(db.t, r, s);
    case SessionUp(r, s) => PutSessionOk(db.t, r, s);
    case SessionOut(r) => DropSessionOk(db.t, r);
    case PageIn(p, page) => PutPageOk(db.t, p, page);
    case PageUp(p, url, title) => PutPageOk(db.t, p, db.t.pages[p].(url := url, title := title));
    case EventIn(e, ev) => PutEventOk(db.t, e, ev);
    case LogIn(l, lg) => PutLogOk(db.t, l, lg);
    case LogOut(l) => DropLogOk(db.t, l);
    case Switch(_) =>
    case Work(_, _, _, _) =>
    case WorkFailed =>
  }

  /** Each step is admitted in the state the earlier ones left. */
  predicate IsRun(db: Db, steps: seq<Step>)
    requires TablesOk(db.t)
    decreases |steps|
  {
    steps == [] || (Enabled(db, steps[0]) && (ApplyKeepsTables(db, steps[0]); IsRun(Apply(db, steps[0]), steps[1..])))
  }

  function After(db: Db, steps: seq<Step>): Db
    requires TablesOk(db.t) && IsRun(db, steps)
    decreases |steps|
  {
    if steps == [] then db else
      ApplyKeepsTables(db, steps[0]);
      After(Apply(db, steps[0]), steps[1..])
  }

  // ---- The invariant ----

  ghost predicate Live(db: Db) {
    db.st.phase == Building || db.st.phase == Ready
  }

  /** The build cursor has dealt with this session. */
  ghost predicate Passed(db: Db, r: int) {
    db.st.phase == Ready || r <= db.st.next
  }

  /** Every document is the current text of a live row of its session. */
  ghost predicate Sound(db: Db) {
    forall k :: k in db.docs ==> DocOk(db, k)
  }

  ghost predicate DocOk(db: Db, k: DocKey)
    requires k in db.docs
  {
    && k.session in db.t.sessions
    && 0 <= k.item <= ITEM_MAX
    && (k.item == 0 ==> db.docs[k] == SessionBody(db.t.sessions[k.session]))
    && (1 <= k.item < ITEM_FIRST_DYNAMIC ==>
          exists p :: p in db.t.pages && PageKey(db.t.pages[p]) == k && db.docs[k] == PageBody(db.t.pages[p]))
    && (ITEM_FIRST_DYNAMIC <= k.item ==>
          || (exists e :: e in db.eventDoc && db.eventDoc[e] == k)
          || (exists l :: l in db.logDoc && db.logDoc[l] == k))
  }

  ghost predicate EventsMapped(db: Db) {
    && (forall e :: e in db.eventDoc ==>
          && e in db.t.events
          && db.eventDoc[e].session == db.t.events[e].session
          && ITEM_FIRST_DYNAMIC <= db.eventDoc[e].item <= ITEM_MAX
          && db.eventDoc[e] in db.docs
          && db.docs[db.eventDoc[e]] == EventBody(db.t.events[e]))
    && (forall e, f :: e in db.eventDoc && f in db.eventDoc && db.eventDoc[e] == db.eventDoc[f] ==> e == f)
  }

  ghost predicate LogsMapped(db: Db) {
    && (forall l :: l in db.logDoc ==>
          && l in db.t.logs
          && db.t.logs[l].session == Some(db.logDoc[l].session)
          && ITEM_FIRST_DYNAMIC <= db.logDoc[l].item <= ITEM_MAX
          && db.logDoc[l] in db.docs
          && db.docs[db.logDoc[l]] == LogBody(db.t.logs[l]))
    && (forall l, m :: l in db.logDoc && m in db.logDoc && db.logDoc[l] == db.logDoc[m] ==> l == m)
    && (forall l, e :: l in db.logDoc && e in db.eventDoc ==> db.logDoc[l] != db.eventDoc[e])
  }

  /** Rows written after the build began, and rows of sessions the cursor has
      passed, are indexed; tracked events and logs only short of an overflow. */
  ghost predicate Complete(db: Db) {
    && SessionsIndexed(db) && PagesIndexed(db)
    && (!db.st.overflowed ==> EventsIndexed(db) && LogsIndexed(db))
  }

  ghost predicate SessionsIndexed(db: Db) {
    forall r :: r in db.t.sessions && (Passed(db, r) || r > db.st.cutSessions) ==> DocKey(r, 0) in db.docs
  }

  ghost predicate PagesIndexed(db: Db) {
    forall p :: p in db.t.pages && (Passed(db, db.t.pages[p].session) || p > db.st.cutPages) ==> PageKey(db.t.pages[p]) in db.docs
  }

  ghost predicate EventsIndexed(db: Db) {
    forall e :: e in db.t.events && EventDue(db, e) ==> e in db.eventDoc
  }

  ghost predicate LogsIndexed(db: Db) {
    forall l :: l in db.t.logs && LogDue(db, l) ==> l in db.logDoc
  }

  ghost predicate EventDue(db: Db, e: int)
    requires e in db.t.events
  {
    Passed(db, db.t.events[e].session) || e > db.st.cutEvents
  }

  ghost predicate LogDue(db: Db, l: int)
    requires l in db.t.logs
  {
    db.t.logs[l].session.Some? && (Passed(db, db.t.logs[l].session.value) || l > db.st.cutLogs)
  }

  /** Only due rows are indexed, so a build batch never meets a row twice. */
  ghost predicate NotEarly(db: Db) {
    && (forall e :: e in db.eventDoc && e in db.t.events ==> EventDue(db, e))
    && (forall l :: l in db.logDoc && l in db.t.logs ==> LogDue(db, l))
  }

  /** The cutoffs lie below every rowid still to be handed out, and a session
      younger than its cutoff has only children younger than theirs. */
  ghost predicate CutoffsOk(db: Db) {
    && db.st.cutSessions <= db.t.lastSession && db.st.cutPages <= db.t.lastPage
    && db.st.cutEvents <= db.t.lastEvent && db.st.cutLogs <= db.t.lastLog
    && (forall p :: p in db.t.pages && db.t.pages[p].session > db.st.cutSessions ==> p > db.st.cutPages)
    && (forall e :: e in db.t.events && db.t.events[e].session > db.st.cutSessions ==> e > db.st.cutEvents)
    && (forall l :: l in db.t.logs && db.t.logs[l].session.Some? && db.t.logs[l].session.value > db.st.cutSessions ==> l > db.st.cutLogs)
  }

  ghost predicate ProgressOk(db: Db) {
    && 0 <= db.st.done && 0 <= db.st.next
    && (db.st.phase == Building ==>
          db.st.total == db.st.done + |RemainingSessions(db.t, db.st.next, db.st.cutSessions)|)
  }

  ghost predicate LiveOk(db: Db) {
    Sound(db) && EventsMapped(db) && LogsMapped(db) && Complete(db) && NotEarly(db) && CutoffsOk(db)
  }

  ghost predicate Inv(db: Db) {
    && TablesOk(db.t)
    && !db.clash
    && (db.triggers <==> Live(db))
    && (db.present <==> db.st.phase != Off)
    && (db.st.phase == Off ==> db.docs == map[] && db.logDoc == map[])
    && (Live(db) ==> LiveOk(db))
    && ProgressOk(db)
  }
}
