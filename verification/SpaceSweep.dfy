/** The disk-budget sweep over the recording database: it gives up the search
    index first, and then the oldest recordings, batch by batch. */
module SpaceSweep {
  import opened Rows
  import opened Tables
  import opened SearchIndex
  import opened SearchStore
  import opened SearchInvariant
  import opened SearchTheorems

  const BATCH := 200
  const MAX_DELETE := 5_000
  const INCREMENTAL := 2

  datatype Reason = Disabled | UnderBudget | RemovingIndex | CannotReclaim | BackUnder | Floor | Ceiling

  /** `seen` is who was last seen when, as the sweep ends. */
  datatype Result = Result(reason: Reason, sizeBefore: nat, sizeAfter: nat, gone: nat, seen: Times)

  type Times = map<int, int>

  ghost predicate Timed(t: Store, seen: Times) {
    forall r :: r in t.sessions ==> r in seen
  }

  function Expired(t: Store, seen: Times, cutoff: int): set<int> {
    set r | r in t.sessions && r in seen && seen[r] < cutoff
  }

  /** The rows gone are expired, and none was seen later than a row still there. */
  ghost predicate OldestGone(was: Store, now: Store, seen: Times, cutoff: int) {
    && now.sessions.Keys <= was.sessions.Keys
    && (forall r :: r in now.sessions ==> now.sessions[r] == was.sessions[r])
    && forall d :: d in was.sessions && d !in now.sessions && d in seen ==>
         && seen[d] < cutoff
         && forall k :: k in now.sessions && k in seen ==> seen[d] <= seen[k]
  }

  lemma OldestGoneOn(a: Store, b: Store, c: Store, seen: Times, cutoff: int)
    requires OldestGone(a, b, seen, cutoff) && OldestGone(b, c, seen, cutoff) && Timed(a, seen)
    ensures OldestGone(a, c, seen, cutoff)
  {}

  lemma {:induction false} OldestExists(rows: set<int>, seen: Times)
    requires rows != {} && forall r :: r in rows ==> r in seen
    ensures exists r :: r in rows && forall k :: k in rows ==> seen[r] <= seen[k]
    decreases rows
  {
    var y := Member(rows);
    if rows == {y} {
      assert forall k :: k in rows ==> k == y;
    } else {
      OldestExists(rows - {y}, seen);
      var r :| r in rows - {y} && forall k :: k in rows - {y} ==> seen[r] <= seen[k];
      var least := if seen[y] < seen[r] then y else r;
      assert least in rows;
      forall k | k in rows ensures seen[least] <= seen[k] { assert k == y || k in rows - {y}; }
    }
  }

  function Oldest(rows: set<int>, seen: Times): (r: int)
    requires rows != {} && forall r :: r in rows ==> r in seen
    ensures r in rows && forall k :: k in rows ==> seen[r] <= seen[k]
  {
    OldestExists(rows, seen);
    var least := set r | r in rows && forall k :: k in rows ==> seen[r] <= seen[k];
    assert least != {} by {
      var r :| r in rows && forall k :: k in rows ==> seen[r] <= seen[k];
      assert r in least;
    }
    Min(least)
  }

  lemma DropOne(t: Store, r: int, seen: Times, cutoff: int)
    requires Timed(t, seen) && Expired(t, seen, cutoff) != {} && r == Oldest(Expired(t, seen, cutoff), seen)
    ensures var t' := DropSession(t, r);
            && OldestGone(t, t', seen, cutoff) && Timed(t', seen)
            && Expired(t', seen, cutoff) == Expired(t, seen, cutoff) - {r}
            && |t'.sessions| == |t.sessions| - 1
  {
    var t' := DropSession(t, r);
    assert t'.sessions.Keys == t.sessions.Keys - {r};
    assert |t'.sessions.Keys| == |t.sessions.Keys| - 1;
  }

  /** The sessions of `ids` deleted, one after another. */
  ghost function DeletedAll(db: Db, ids: seq<int>): Db {
    if ids == [] then db else SearchIndex.DeleteSession(DeletedAll(db, ids[..|ids| - 1]), ids[|ids| - 1])
  }

  lemma DeletedOne(db: Db, ids: seq<int>, r: int)
    ensures DeletedAll(db, ids + [r]) == SearchIndex.DeleteSession(DeletedAll(db, ids), r)
  {
    assert (ids + [r])[..|ids|] == ids;
  }

  /** One DELETE of the sessions seen longest ago, at most a batch of them. */
  method DeleteOldest(db: Database, seen: Times, cutoff: int) returns (n: nat, ghost ids: seq<int>)
    requires db.Valid() && Timed(db.tables, seen)
    modifies db
    ensures db.Valid() && Timed(db.tables, seen)
    ensures db.Now() == DeletedAll(old(db.Now()), ids) && |ids| == n <= 200
    ensures OldestGone(old(db.tables), db.tables, seen, cutoff)
    ensures |db.tables.sessions| == |old(db.tables).sessions| - n
    ensures n < BATCH ==> Expired(db.tables, seen, cutoff) == {}
    ensures n == 0 <==> Expired(old(db.tables), seen, cutoff) == {}
    ensures n < 200 ==> forall r :: r in db.tables.sessions ==> r in seen && seen[r] >= cutoff
    ensures n > 0 ==> exists r :: r in old(db.tables).sessions && seen[r] < cutoff
  {
    hide Inv;
    n, ids := 0, [];
    ghost var before := db.tables;
    while n < BATCH && Expired(db.tables, seen, cutoff) != {}
      invariant db.Valid() && Timed(db.tables, seen) && |ids| == n <= BATCH
      invariant db.Now() == DeletedAll(old(db.Now()), ids)
      invariant OldestGone(before, db.tables, seen, cutoff)
      invariant |db.tables.sessions| == |before.sessions| - n
      invariant n == 0 ==> db.tables == before
      invariant n > 0 ==> Expired(before, seen, cutoff) != {}
      decreases BATCH - n
    {
      var r := Oldest(Expired(db.tables, seen, cutoff), seen);
      ghost var mid := db.tables;
      DropOne(mid, r, seen, cutoff);
      DeletedOne(old(db.Now()), ids, r);
      db.DeleteSession(r);
      OldestGoneOn(before, mid, db.tables, seen, cutoff);
      n, ids := n + 1, ids + [r];
    }
    if n > 0 { ghost var r := Member(Expired(before, seen, cutoff)); }
  }

  // ---- What goes on between the sweep's statements ----

  /** A statement of some other request, or a turn of the index worker. */
  datatype Other =
    | Came(r: int, s: Session, at: int)
    | Touched(r: int, at: int)
    | Changed(r: int, s: Session)
    | Left(r: int)
    | Paged(r: int, idx: int, url: string, title: string)
    | Tracked(ev: Event)
    | Logged(l: int, lg: Log)
    | Unlogged(l: int)
    | Switched(on: bool)
    | Worked(busy: bool, size: nat, rows: nat)

  /** The database, and who was last seen when. */
  datatype Moment = Moment(db: Db, seen: Times)

  function PageRows(t: Store, r: int, idx: int): set<int> {
    set p | p in t.pages && t.pages[p].session == r && t.pages[p].idx == idx
  }

  /** The step a statement comes to: a page seen before is updated, and an event
      stored before is ignored. */
  ghost function StepOf(db: Db, o: Other): Option<Step> {
    match o
    case Came(r, s, _) => Some(SessionIn(r, s))
    case Touched(_, _) => None
    case Changed(r, s) => Some(SessionUp(r, s))
    case Left(r) => Some(SessionOut(r))
    case Paged(r, idx, url, title) =>
      var rows := PageRows(db.t, r, idx);
      Some(if rows == {} then PageIn(db.t.lastPage + 1, Page(r, idx, url, title)) else PageUp(Min(rows), url, title))
    case Tracked(ev) => Some(EventIn(db.t.lastEvent + 1, ev))
    case Logged(l, lg) => Some(LogIn(l, lg))
    case Unlogged(l) => Some(LogOut(l))
    case Switched(on) => Some(Switch(on))
    case Worked(busy, size, rows) => Some(Work(db.st.enabled, busy, size, rows))
  }

  /** A statement happens if keys and foreign keys let it. */
  ghost function Done(db: Db, step: Option<Step>): Db {
    if step.Some? && TablesOk(db.t) && Enabled(db, step.value) then Apply(db, step.value) else db
  }

  /** Whoever is seen is seen now, which is after the cutoff. */
  ghost function Next(m: Moment, cutoff: int, o: Other): Moment {
    match o
    case Came(r, s, at) =>
      if at >= cutoff && TablesOk(m.db.t) && Enabled(m.db, SessionIn(r, s)) then
        Moment(Apply(m.db, SessionIn(r, s)), m.seen[r := at])
      else m
    case Touched(r, at) => if at >= cutoff then m.(seen := m.seen[r := at]) else m
    case _ => m.(db := Done(m.db, StepOf(m.db, o)))
  }

  ghost function NextAll(m: Moment, cutoff: int, others: seq<Other>): Moment {
    if others == [] then m else Next(NextAll(m, cutoff, others[..|others| - 1]), cutoff, others[|others| - 1])
  }

  lemma Took(db: Db, step: Step)
    requires Inv(db)
    ensures TablesOk(db.t)
    ensures Done(db, Some(step)) == (if Enabled(db, step) then Apply(db, step) else db)
    ensures Inv(Done(db, Some(step)))
  {
    hide Inv, TablesOk, Enabled, Apply;
    InvTables(db);
    if Enabled(db, step) { ApplyKeeps(db, step); }
  }

  /** Only a new session adds a row of sessions, and it is seen at once. */
  lemma RowsStay(db: Db, step: Step)
    requires TablesOk(db.t) && Enabled(db, step) && !step.SessionIn?
    ensures Apply(db, step).t.sessions.Keys <= db.t.sessions.Keys
  {
    hide TablesOk, SessionFits, PageFits, EventFits, LogFits, LogsOf, EventsOf, PagesOf;
  }

  /** Nobody expires meanwhile. */
  lemma NoneExpires(m: Moment, cutoff: int, o: Other)
    requires Inv(m.db) && Timed(m.db.t, m.seen)
    ensures var m' := Next(m, cutoff, o);
            Timed(m'.db.t, m'.seen) && Expired(m'.db.t, m'.seen, cutoff) <= Expired(m.db.t, m.seen, cutoff)
  {
    hide Inv, Enabled, Apply, TablesOk;
    var step := StepOf(m.db, o);
    if step.Some? && Enabled(m.db, step.value) {
      Took(m.db, step.value);
      if step.value.SessionIn? { AddsOne(m.db, step.value.r, step.value.s); } else { RowsStay(m.db, step.value); }
    }
  }

  lemma AddsOne(db: Db, r: int, s: Session)
    requires TablesOk(db.t) && Enabled(db, SessionIn(r, s))
    ensures Apply(db, SessionIn(r, s)).t.sessions == db.t.sessions[r := s]
  {
    hide TablesOk, SessionFits;
  }

  method SavePage(db: Database, r: int, idx: int, url: string, title: string)
    requires db.Valid()
    modifies db
    ensures db.Valid() && db.Now() == Done(old(db.Now()), StepOf(old(db.Now()), Paged(r, idx, url, title)))
  {
    hide Inv, TablesOk, SearchIndex.InsertPage, UpdatePage, PageFits;
    InvTables(db.Now());
    PageStep(db.tables, r, idx, url, title);
    if r in db.tables.sessions && 0 <= idx <= MAX_PAGE_INDEX { var p := db.SavePage(r, idx, url, title); }
  }

  method Happen(db: Database, seen: Times, cutoff: int, o: Other) returns (seen': Times)
    requires db.Valid() && Timed(db.tables, seen)
    modifies db
    ensures db.Valid() && Timed(db.tables, seen')
    ensures Moment(db.Now(), seen') == Next(Moment(old(db.Now()), seen), cutoff, o)
    ensures Expired(db.tables, seen', cutoff) <= Expired(old(db.tables), seen, cutoff)
  {
    hide Inv, TablesOk, SessionFits, EventFits, LogFits, Timed, Expired, PageRows;
    hide SearchIndex.InsertSession, SearchIndex.UpdateSession, SearchIndex.DeleteSession;
    hide InsertEvent, SearchIndex.InsertLog, SearchIndex.DeleteLog, SearchIndex.RunStep;
    NoneExpires(Moment(db.Now(), seen), cutoff, o);
    InvTables(db.Now());
    seen' := seen;
    match o
    case Came(r, s, at) =>
      if at >= cutoff && r > db.tables.lastSession && SessionFits(db.tables, r, s) {
        db.InsertSession(r, s);
        seen' := seen[r := at];
      }
    case Touched(r, at) =>
      if at >= cutoff { seen' := seen[r := at]; }
    case Changed(r, s) =>
      if r in db.tables.sessions && SessionFits(db.tables, r, s) { db.UpdateSession(r, s); }
    case Left(r) =>
      if r in db.tables.sessions { db.DeleteSession(r); }
    case Paged(r, idx, url, title) => SavePage(db, r, idx, url, title);
    case Tracked(ev) =>
      EventStep(db.tables, ev);
      if ev.session in db.tables.sessions { var inserted := db.SaveCustomEvent(ev); }
    case Logged(l, lg) =>
      if LogFits(db.tables, l, lg) { db.InsertLog(l, lg); }
    case Unlogged(l) =>
      if l in db.tables.logs { db.DeleteLog(l); }
    case Switched(on) => db.SetEnabled(on);
    case Worked(busy, size, rows) =>
      if size > 0 && rows > 0 {
        var again := db.RunStep(size, rows, busy);
      }
  }

  lemma PageStep(t: Store, r: int, idx: int, url: string, title: string)
    requires TablesOk(t)
    ensures forall p :: p in t.pages && t.pages[p].session == r && t.pages[p].idx == idx ==> PageRows(t, r, idx) == {p}
    ensures PageFits(t, t.lastPage + 1, Page(r, idx, url, title)) <==>
              r in t.sessions && 0 <= idx <= MAX_PAGE_INDEX && PageRows(t, r, idx) == {}
    ensures PageRows(t, r, idx) != {} ==> r in t.sessions && 0 <= idx <= MAX_PAGE_INDEX
  {
    var rows := PageRows(t, r, idx);
    forall p | p in rows ensures rows == {p} {
      forall q | q in rows ensures q == p {}
    }
    forall q | q in t.pages && t.pages[q].session == r && t.pages[q].idx == idx ensures q in rows {}
    if rows != {} {
      var p := Member(rows);
    }
  }

  lemma EventStep(t: Store, ev: Event)
    requires TablesOk(t)
    ensures EventFits(t, t.lastEvent + 1, ev) <==>
              ev.session in t.sessions && forall f :: f in t.events ==> t.events[f] != ev
    ensures (exists f :: f in t.events && t.events[f] == ev) ==> ev.session in t.sessions
  {}

  lemma NextAllOne(m: Moment, cutoff: int, others: seq<Other>, o: Other)
    ensures NextAll(m, cutoff, others + [o]) == Next(NextAll(m, cutoff, others), cutoff, o)
  {
    assert (others + [o])[..|others|] == others;
  }

  method HappenAll(db: Database, seen: Times, cutoff: int, others: seq<Other>) returns (seen': Times)
    requires db.Valid() && Timed(db.tables, seen)
    modifies db
    ensures db.Valid() && Timed(db.tables, seen')
    ensures Moment(db.Now(), seen') == NextAll(Moment(old(db.Now()), seen), cutoff, others)
    ensures Expired(db.tables, seen', cutoff) <= Expired(old(db.tables), seen, cutoff)
  {
    hide Inv, Next, Timed, Expired;
    seen' := seen;
    var i := 0;
    while i < |others|
      invariant 0 <= i <= |others| && db.Valid() && Timed(db.tables, seen')
      invariant Moment(db.Now(), seen') == NextAll(Moment(old(db.Now()), seen), cutoff, others[..i])
      invariant Expired(db.tables, seen', cutoff) <= Expired(old(db.tables), seen, cutoff)
    {
      NextAllOne(Moment(old(db.Now()), seen), cutoff, others[..i], others[i]);
      assert others[..i + 1] == others[..i] + [others[i]];
      seen' := Happen(db, seen', cutoff, others[i]);
      i := i + 1;
    }
    assert others[..i] == others;
  }

  // ---- The sweep ----

  /** What a sweep is given: `size` is the footprint of rows and index documents,
      and `others(i)` what other requests do before the sweep's i-th statement. */
  datatype Task = Task(size: (Store, map<DocKey, Body>) -> nat, budget: nat, cutoff: int, others: nat -> seq<Other>)

  ghost predicate Over(task: Task, m: Moment) {
    task.size(m.db.t, m.db.docs) > task.budget
  }

  /** One batch: the state whose footprint was measured, the one the DELETE met,
      and the sessions it deleted. */
  datatype Round = Round(measured: Moment, before: Moment, ids: seq<int>)

  ghost function LeftBy(round: Round): Moment {
    round.before.(db := DeletedAll(round.before.db, round.ids))
  }

  /** A batch begins over budget, and deletes the sessions seen longest ago, all
      below the floor: its share, or as many as there are. */
  ghost predicate RoundOk(task: Task, i: nat, round: Round) {
    && Over(task, round.measured)
    && round.before == NextAll(round.measured, task.cutoff, task.others(2 * i))
    && 0 < |round.ids| <= BATCH
    && OldestGone(round.before.db.t, LeftBy(round).db.t, round.before.seen, task.cutoff)
    && |LeftBy(round).db.t.sessions| == |round.before.db.t.sessions| - |round.ids|
    && (|round.ids| == BATCH || Expired(LeftBy(round).db.t, round.before.seen, task.cutoff) == {})
    && Timed(round.before.db.t, round.before.seen) && Inv(LeftBy(round).db)
  }

  /** The batches lead from one measurement to the next, and so to `end`. */
  ghost predicate Ran(task: Task, start: Moment, rounds: seq<Round>, end: Moment) {
    if rounds == [] then end == start
    else
      var i := |rounds| - 1;
      && Ran(task, start, rounds[..i], rounds[i].measured) && Gone(rounds[..i]) < MAX_DELETE && RoundOk(task, i, rounds[i])
      && end == NextAll(LeftBy(rounds[i]), task.cutoff, task.others(2 * i + 1))
  }

  function Gone(rounds: seq<Round>): nat {
    if rounds == [] then 0 else Gone(rounds[..|rounds| - 1]) + |rounds[|rounds| - 1].ids|
  }

  lemma OneMore(task: Task, start: Moment, rounds: seq<Round>, round: Round)
    requires Ran(task, start, rounds, round.measured) && Gone(rounds) < MAX_DELETE && RoundOk(task, |rounds|, round)
    ensures Ran(task, start, rounds + [round], NextAll(LeftBy(round), task.cutoff, task.others(2 * |rounds| + 1)))
    ensures Gone(rounds + [round]) == Gone(rounds) + |round.ids|
  {
    hide RoundOk, NextAll, LeftBy;
    assert (rounds + [round])[..|rounds|] == rounds;
  }

  /** What the DELETE after the last measurement would find. */
  ghost function Met(task: Task, rounds: seq<Round>, end: Moment): Moment {
    NextAll(end, task.cutoff, task.others(2 * |rounds|))
  }

  /** Another batch follows exactly over budget, short of the ceiling, and with a
      session below the floor. */
  ghost predicate GoesOn(task: Task, rounds: seq<Round>, end: Moment) {
    && Over(task, end) && Gone(rounds) < MAX_DELETE
    && Expired(Met(task, rounds, end).db.t, Met(task, rounds, end).seen, task.cutoff) != {}
  }

  ghost predicate Undisturbed(others: nat -> seq<Other>) {
    forall i :: others(i) == []
  }

  /** The pruning loop, entered over budget. */
  method Prune(db: Database, times: Times, task: Task) returns (res: Result, ghost rounds: seq<Round>, ghost end: Moment)
    requires db.Valid() && Timed(db.tables, times) && Over(task, Moment(db.Now(), times))
    modifies db
    ensures db.Valid() && res.reason in {BackUnder, Floor, Ceiling}
    ensures Ran(task, Moment(old(db.Now()), times), rounds, end) && !GoesOn(task, rounds, end)
    ensures Moment(db.Now(), res.seen) == if res.reason == Floor then Met(task, rounds, end) else end
    ensures res.gone == Gone(rounds) <= MAX_DELETE && res.sizeAfter == task.size(end.db.t, end.db.docs)
    ensures res.reason == BackUnder <==> !Over(task, end)
    ensures res.reason == Ceiling <==> Over(task, end) && res.gone == MAX_DELETE
    ensures res.reason == Floor ==> forall r :: r in db.tables.sessions ==> r in res.seen && res.seen[r] >= task.cutoff
    ensures res.sizeBefore == task.size(old(db.tables), old(db.docs))
  {
    hide Inv, OldestGone, Expired, Timed, Ran, Gone, NextAll, RoundOk, DeletedAll;
    rounds, end := [], Moment(db.Now(), times);
    Unrun(task, end);
    var before := task.size(db.tables, db.docs);
    var seen, now, gone := times, before, 0;
    var i: nat := 0;
    while now > task.budget
      invariant db.Valid() && Timed(db.tables, seen) && now == task.size(db.tables, db.docs)
      invariant end == Moment(db.Now(), seen) && i == 2 * |rounds|
      invariant Ran(task, Moment(old(db.Now()), times), rounds, end)
      invariant gone == Gone(rounds) <= MAX_DELETE
      invariant gone % BATCH == 0 || Expired(db.tables, seen, task.cutoff) == {}
      decreases MAX_DELETE - gone
    {
      if gone >= MAX_DELETE {
        return Result(Ceiling, before, now, gone, seen), rounds, end;
      }
      seen := HappenAll(db, seen, task.cutoff, task.others(i));
      ghost var met := Moment(db.Now(), seen);
      var n, ids := DeleteOldest(db, seen, task.cutoff);
      if n == 0 {
        NothingDeleted(met.db, ids);
        return Result(Floor, before, now, gone, seen), rounds, end;
      }
      ghost var round := Round(end, met, ids);
      Begun(task, |rounds|, round);
      OneMore(task, Moment(old(db.Now()), times), rounds, round);
      gone := gone + n;
      seen := HappenAll(db, seen, task.cutoff, task.others(i + 1));
      now := task.size(db.tables, db.docs);
      rounds, end, i := rounds + [round], Moment(db.Now(), seen), i + 2;
    }
    return Result(BackUnder, before, now, gone, seen), rounds, end;
  }

  lemma Unrun(task: Task, start: Moment)
    ensures Ran(task, start, [], start) && Gone([]) == 0
  {}

  lemma NothingDeleted(db: Db, ids: seq<int>)
    requires |ids| == 0
    ensures DeletedAll(db, ids) == db
  {}

  lemma Begun(task: Task, i: nat, round: Round)
    requires Over(task, round.measured) && 0 < |round.ids| <= BATCH
    requires round.before == NextAll(round.measured, task.cutoff, task.others(2 * i))
    requires OldestGone(round.before.db.t, LeftBy(round).db.t, round.before.seen, task.cutoff)
    requires |LeftBy(round).db.t.sessions| == |round.before.db.t.sessions| - |round.ids|
    requires |round.ids| == BATCH || Expired(LeftBy(round).db.t, round.before.seen, task.cutoff) == {}
    requires Timed(round.before.db.t, round.before.seen) && Inv(LeftBy(round).db)
    ensures RoundOk(task, i, round)
  {
    hide OldestGone, NextAll, LeftBy, Timed, Expired, Inv;
  }

  /** SweepToBudget; `mode` is the auto_vacuum mode. */
  method SweepToBudget(db: Database, times: Times, task: Task, mode: int)
    returns (res: Result, ghost rounds: seq<Round>, ghost end: Moment)
    requires db.Valid() && Timed(db.tables, times)
    modifies db
    ensures db.Valid()
    ensures var start := Moment(old(db.Now()), times);
            // why it did not start, or how it was going when it stopped
            && (res.reason == Disabled <==> task.budget == 0)
            && (res.reason == UnderBudget <==> task.budget > 0 && !Over(task, start))
            && (res.reason == RemovingIndex <==> task.budget > 0 && Over(task, start) && Indexed(start.db))
            && (res.reason == CannotReclaim <==>
                  task.budget > 0 && Over(task, start) && !Indexed(start.db) && mode != 2)
            && (res.reason in {Disabled, UnderBudget, CannotReclaim} ==> db.Now() == start.db && rounds == [])
            && (res.reason == RemovingIndex ==> db.Now() == Toggle(start.db, false) && rounds == [])
            && (res.reason in {BackUnder, Floor, Ceiling} ==>
                  && Ran(task, start, rounds, end) && !GoesOn(task, rounds, end)
                  && res.sizeAfter == task.size(end.db.t, end.db.docs)
                  && Moment(db.Now(), res.seen) == if res.reason == Floor then Met(task, rounds, end) else end)
            && (res.reason == BackUnder ==> !Over(task, end))
            && (res.reason == Ceiling ==> Over(task, end) && res.gone == 5_000)
            && (res.reason == Floor ==>
                  && Over(task, end) && res.gone < 5_000
                  && forall r :: r in db.tables.sessions ==> r in res.seen && res.seen[r] >= task.cutoff)
            && res.sizeBefore == (if task.budget == 0 then 0 else task.size(start.db.t, start.db.docs))
    ensures res.gone == Gone(rounds) <= 5_000
  {
    hide Inv, Expired, Timed, Ran, Gone, NextAll;
    rounds, end := [], Moment(db.Now(), times);
    Unrun(task, end);
    if task.budget == 0 {
      return Result(Disabled, 0, 0, 0, times), rounds, end;
    }
    var before := task.size(db.tables, db.docs);
    if before <= task.budget {
      return Result(UnderBudget, before, before, 0, times), rounds, end;
    }
    var removing := db.DisableForLowDisk();
    if removing {
      return Result(RemovingIndex, before, before, 0, times), rounds, end;
    }
    if mode != INCREMENTAL {
      return Result(CannotReclaim, before, before, 0, times), rounds, end;
    }
    res, rounds, end := Prune(db, times, task);
  }

  /** A search index is wanted, or some of one is there. */
  ghost predicate Indexed(db: Db) {
    db.st.phase != Off || db.st.enabled
  }

  lemma NoIndexLeft(db: Db)
    requires Inv(db) && !Indexed(db)
    ensures !db.present && !db.triggers && db.docs == map[]
  {
    hide TablesOk, LiveOk;
  }

  // ---- What a sweep deletes ----

  /** Whichever batch one looks at, it began over budget, and it led on to the next. */
  lemma {:induction false} EveryBatch(task: Task, start: Moment, rounds: seq<Round>, end: Moment, i: nat)
    requires Ran(task, start, rounds, end) && i < |rounds|
    ensures Ran(task, start, rounds[..i], rounds[i].measured) && Gone(rounds[..i]) < MAX_DELETE && RoundOk(task, i, rounds[i])
    ensures var next := if i + 1 < |rounds| then rounds[i + 1].measured else end;
            next == NextAll(LeftBy(rounds[i]), task.cutoff, task.others(2 * i + 1))
  {
    hide RoundOk, NextAll, LeftBy;
    var n := |rounds| - 1;
    if i < n {
      EveryBatch(task, start, rounds[..n], rounds[n].measured, i);
      assert rounds[..n][..i] == rounds[..i];
    }
  }

  lemma NoneGone(t: Store, seen: Times, cutoff: int)
    ensures OldestGone(t, t, seen, cutoff)
  {}

  /** Left alone, a sweep deletes the sessions seen longest ago and no others, and
      the tables each batch met were over budget. */
  lemma {:induction false} AloneDeletesOldest(task: Task, start: Moment, rounds: seq<Round>, end: Moment)
    requires Ran(task, start, rounds, end) && Undisturbed(task.others) && Timed(start.db.t, start.seen)
    ensures OldestGone(start.db.t, end.db.t, start.seen, task.cutoff) && end.seen == start.seen
    ensures |end.db.t.sessions| == |start.db.t.sessions| - Gone(rounds)
    ensures forall i :: 0 <= i < |rounds| ==> rounds[i].before == rounds[i].measured && Over(task, rounds[i].before)
    ensures Met(task, rounds, end) == end
  {
    hide Timed, Over, OldestGone, DeletedAll, Inv, Expired, Next;
    assert task.others(2 * |rounds|) == [];
    NoneGone(start.db.t, start.seen, task.cutoff);
    if rounds != [] {
      var n := |rounds| - 1;
      AloneDeletesOldest(task, start, rounds[..n], rounds[n].measured);
      assert task.others(2 * n) == [] && task.others(2 * n + 1) == [];
      assert forall i :: 0 <= i < n ==> rounds[..n][i] == rounds[i];
      OldestGoneOn(start.db.t, rounds[n].before.db.t, LeftBy(rounds[n]).db.t, start.seen, task.cutoff);
    }
  }

  /** A batch of sessions below the floor was there to delete. */
  lemma SomeoneExpired(task: Task, i: nat, round: Round)
    requires RoundOk(task, i, round)
    ensures Expired(round.before.db.t, round.before.seen, task.cutoff) != {}
  {
    hide NextAll, Inv, DeletedAll;
    var was, now := round.before.db.t.sessions.Keys, LeftBy(round).db.t.sessions.Keys;
    assert was * now == now;
    assert |was - now| == |was| - |now|;
    var d := Member(was - now);
    assert d in Expired(round.before.db.t, round.before.seen, task.cutoff);
  }

  /** Only the footprint, the ceiling and the floor decide whether another batch
      begins. */
  lemma AnotherBatchIff(task: Task, start: Moment, rounds: seq<Round>, end: Moment, i: nat)
    requires Ran(task, start, rounds, end) && !GoesOn(task, rounds, end) && i < |rounds|
    ensures var next := NextAll(LeftBy(rounds[i]), task.cutoff, task.others(2 * i + 1));
            i + 1 < |rounds| <==> GoesOn(task, rounds[..i + 1], next)
  {
    hide Ran, NextAll, LeftBy, Over, Expired, Gone, RoundOk;
    EveryBatch(task, start, rounds, end, i);
    if i + 1 < |rounds| {
      EveryBatch(task, start, rounds, end, i + 1);
      SomeoneExpired(task, i + 1, rounds[i + 1]);
      BegunOver(task, i + 1, rounds[i + 1]);
      assert |rounds[..i + 1]| == i + 1;
    } else {
      assert rounds[..i + 1] == rounds;
    }
  }

  lemma BegunOver(task: Task, i: nat, round: Round)
    requires RoundOk(task, i, round)
    ensures Over(task, round.measured) && round.before == NextAll(round.measured, task.cutoff, task.others(2 * i))
  {
    hide NextAll, Inv, Over, OldestGone, LeftBy, Expired;
  }

  lemma {:induction false} NextAllKeeps(m: Moment, cutoff: int, others: seq<Other>)
    requires Inv(m.db)
    ensures Inv(NextAll(m, cutoff, others).db)
  {
    hide Inv, TablesOk, Enabled, Apply;
    if others != [] {
      var n := |others| - 1;
      NextAllKeeps(m, cutoff, others[..n]);
      var mid := NextAll(m, cutoff, others[..n]);
      var step := StepOf(mid.db, others[n]);
      if step.Some? { Took(mid.db, step.value); }
    }
  }

  /** An index switched on after a batch does not hold up the next: whether that
      one comes is decided as before, and it deletes recordings. */
  lemma SwitchedOnMeanwhile(task: Task, start: Moment, rounds: seq<Round>, end: Moment, i: nat, earlier: seq<Other>)
    requires Ran(task, start, rounds, end) && !GoesOn(task, rounds, end) && i < |rounds|
    requires task.others(2 * i + 1) == earlier + [Switched(true)]
    ensures var next := NextAll(LeftBy(rounds[i]), task.cutoff, task.others(2 * i + 1));
            && Indexed(next.db)
            && (i + 1 < |rounds| <==> GoesOn(task, rounds[..i + 1], next))
            && (i + 1 < |rounds| ==> rounds[i + 1].measured == next && rounds[i + 1].ids != [])
  {
    hide Ran, NextAll, LeftBy, Over, Expired, Gone, RoundOk, Inv, Indexed, GoesOn;
    EveryBatch(task, start, rounds, end, i);
    AnotherBatchIff(task, start, rounds, end, i);
    BatchLeftInv(task, i, rounds[i]);
    NextAllKeeps(LeftBy(rounds[i]), task.cutoff, earlier);
    NextAllOne(LeftBy(rounds[i]), task.cutoff, earlier, Switched(true));
    NowIndexed(NextAll(LeftBy(rounds[i]), task.cutoff, earlier), task.cutoff);
    if i + 1 < |rounds| {
      EveryBatch(task, start, rounds, end, i + 1);
      BatchLeftInv(task, i + 1, rounds[i + 1]);
    }
  }

  lemma BatchLeftInv(task: Task, i: nat, round: Round)
    requires RoundOk(task, i, round)
    ensures Inv(LeftBy(round).db) && round.ids != []
  {
    hide NextAll, Inv, Over, OldestGone, LeftBy, Expired;
  }

  lemma NowIndexed(m: Moment, cutoff: int)
    requires Inv(m.db)
    ensures Indexed(Next(m, cutoff, Switched(true)).db)
  {
    InvTables(m.db);
    hide Inv, TablesOk;
  }
}
