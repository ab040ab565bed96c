/** Options, and the ordered enumeration of a set of row numbers that an
    `ORDER BY rowid` clause stands for. */
module Rows {
  datatype Option<+T> = None | Some(value: T)

  lemma Member<T>(s: set<T>) returns (x: T)
    requires s != {}
    ensures x in s
  {
    x :| x in s;
  }

  lemma KeyOf<K, V>(m: map<K, V>, v: V) returns (k: K)
    requires v in m.Values
    ensures k in m && m[k] == v
  {
    k :| k in m && m[k] == v;
  }

  lemma {:induction false} MinExists(s: set<int>)
    requires s != {}
    ensures exists m :: m in s && forall x :: x in s ==> m <= x
  {
    var y := Member(s);
    if s != {y} {
      MinExists(s - {y});
      var m :| m in s - {y} && forall x :: x in s - {y} ==> m <= x;
      var least := if y < m then y else m;
      forall x | x in s ensures least <= x { assert x == y || x in s - {y}; }
    } else {
      assert forall x :: x in s ==> y <= x;
    }
  }

  function Min(s: set<int>): (m: int)
    requires s != {}
    ensures m in s && forall x :: x in s ==> m <= x
  {
    MinExists(s);
    var m :| m in s && forall x :: x in s ==> m <= x;
    m
  }

  lemma {:induction false} MaxExists(s: set<int>)
    requires s != {}
    ensures exists m :: m in s && forall x :: x in s ==> x <= m
  {
    var y := Member(s);
    if s != {y} {
      MaxExists(s - {y});
      var m :| m in s - {y} && forall x :: x in s - {y} ==> x <= m;
      var most := if y > m then y else m;
      forall x | x in s ensures x <= most { assert x == y || x in s - {y}; }
    } else {
      assert forall x :: x in s ==> x <= y;
    }
  }

  function Max(s: set<int>): (m: int)
    requires s != {}
    ensures m in s && forall x :: x in s ==> x <= m
  {
    MaxExists(s);
    var m :| m in s && forall x :: x in s ==> x <= m;
    m
  }

  predicate Increasing(q: seq<int>) {
    forall i, j :: 0 <= i < j < |q| ==> q[i] < q[j]
  }

  /** The members of s in increasing order, each once. */
  function Sorted(s: set<int>): (q: seq<int>)
    ensures |q| == |s|
    ensures Increasing(q)
    ensures forall x :: x in q <==> x in s
    decreases s
  {
    if s == {} then [] else
      var m := Min(s);
      [m] + Sorted(s - {m})
  }

  /** There is one increasing list of a set's members. */
  lemma {:induction false} SameSorted(p: seq<int>, q: seq<int>)
    requires Increasing(p) && Increasing(q) && forall x :: x in p <==> x in q
    ensures p == q
    decreases |p|
  {
    if p != [] {
      var x := p[0];
      assert x in p;
    }
    if q != [] {
      var x := q[0];
      assert x in q;
    }
    if p != [] {
      assert p == [p[0]] + p[1..] && q == [q[0]] + q[1..];
      assert p[0] == q[0];
      forall x ensures x in p[1..] <==> x in q[1..] {
        assert x in p <==> x == p[0] || x in p[1..];
        assert x in q <==> x == q[0] || x in q[1..];
        assert p[0] !in p[1..] && q[0] !in q[1..];
      }
      SameSorted(p[1..], q[1..]);
    }
  }

  lemma {:induction false} IncreasingSize(q: seq<int>)
    requires Increasing(q)
    ensures |set x | x in q| == |q|
    decreases |q|
  {
    if q != [] {
      var rest := q[..|q| - 1];
      IncreasingSize(rest);
      assert q == rest + [q[|q| - 1]];
      assert (set x | x in q) == (set x | x in rest) + {q[|q| - 1]};
    }
  }

  /** The first n of a sorted set are exactly its members up to the n-th. */
  lemma SortedPrefix(s: set<int>, n: nat)
    requires 0 < n <= |s|
    ensures var q := Sorted(s);
            forall x :: x in q[..n] <==> x in s && x <= q[n - 1]
  {
    hide Increasing;
    var q := Sorted(s);
    forall x ensures x in q[..n] <==> x in s && x <= q[n - 1] {
      if x in s && x <= q[n - 1] { EarlyInPrefix(q, n, x); }
      if x in q[..n] { PrefixIsEarly(q, n, x); }
    }
  }

  lemma PrefixIsEarly(q: seq<int>, n: nat, x: int)
    requires Increasing(q) && 0 < n <= |q| && x in q[..n]
    ensures x in q && x <= q[n - 1]
  {
    var j :| 0 <= j < n && q[..n][j] == x;
    assert q[j] == x;
  }

  lemma EarlyInPrefix(q: seq<int>, n: nat, x: int)
    requires Increasing(q) && 0 < n <= |q| && x in q && x <= q[n - 1]
    ensures x in q[..n]
  {
    var j :| 0 <= j < |q| && q[j] == x;
    assert j < n;
    assert q[..n][j] == x;
  }

  lemma SortedRest(s: set<int>, n: nat)
    requires 0 < n <= |s|
    ensures |set x | x in s && x > Sorted(s)[n - 1]| == |s| - n
  {
    var q := Sorted(s);
    SortedPrefix(s, n);
    IncreasingSize(q[..n]);
    var taken := set x | x in q[..n];
    assert (set x | x in s && x > q[n - 1]) == s - taken;
    assert taken <= s;
  }
}

/** The rows of the recording tables that the session list and its optional
    search index read. A child row names its session by that session's rowid:
    the textual id is the primary key, so the two identify the same live row. */
module Tables {
  import opened Rows

  datatype Session = Session(
    id: string,
    siteId: int,
    startedAt: int,
    durationMs: int,        // the listed duration, an expression over the row and its last chunk
    initialUrl: string,
    exitUrl: string,
    browser: string,
    os: string,
    device: string,
    country: string,
    userId: string,
    clientId: string,
    remoteId: string)

  datatype Page = Page(session: int, idx: int, url: string, title: string)

  datatype Event = Event(session: int, ts: int, name: string, trackId: string)

  /** Service logs belong to no session. */
  datatype Log = Log(session: Option<int>, clientSeq: int, message: string, url: string, severity: string)

  const MAX_PAGE_INDEX := 10_000

  datatype Store = Store(
    sessions: map<int, Session>,
    pages: map<int, Page>,
    events: map<int, Event>,
    logs: map<int, Log>,
    lastSession: int,        // the highest rowid each table has ever handed out
    lastPage: int,
    lastEvent: int,
    lastLog: int)

  /** Primary keys, unique keys, foreign keys and the value checks made on ingest. */
  predicate TablesOk(t: Store) {
    && (forall r :: r in t.sessions ==> 0 < r <= t.lastSession && t.sessions[r].id != "" && t.sessions[r].startedAt > 0)
    && (forall a, b :: a in t.sessions && b in t.sessions && t.sessions[a].id == t.sessions[b].id ==> a == b)
    && (forall p :: p in t.pages ==> 0 < p <= t.lastPage && t.pages[p].session in t.sessions && 0 <= t.pages[p].idx <= MAX_PAGE_INDEX)
    && (forall p, q :: p in t.pages && q in t.pages && t.pages[p].session == t.pages[q].session && t.pages[p].idx == t.pages[q].idx ==> p == q)
    && (forall e :: e in t.events ==> 0 < e <= t.lastEvent && t.events[e].session in t.sessions)
    && (forall e, f :: e in t.events && f in t.events && t.events[e] == t.events[f] ==> e == f)
    && (forall l :: l in t.logs ==> 0 < l <= t.lastLog && (t.logs[l].session.Some? ==> t.logs[l].session.value in t.sessions))
    && 0 <= t.lastSession && 0 <= t.lastPage && 0 <= t.lastEvent && 0 <= t.lastLog
  }

  const EmptyStore := Store(map[], map[], map[], map[], 0, 0, 0, 0)

  function High(last: int, row: int): int {
    if row > last then row else last
  }

  function PutSession(t: Store, r: int, s: Session): Store {
    t.(sessions := t.sessions[r := s], lastSession := High(t.lastSession, r))
  }

  function PutPage(t: Store, p: int, page: Page): Store {
    t.(pages := t.pages[p := page], lastPage := High(t.lastPage, p))
  }

  function PutEvent(t: Store, e: int, ev: Event): Store {
    t.(events := t.events[e := ev], lastEvent := High(t.lastEvent, e))
  }

  function PutLog(t: Store, l: int, lg: Log): Store {
    t.(logs := t.logs[l := lg], lastLog := High(t.lastLog, l))
  }

  function PagesOf(t: Store, r: int): set<int> {
    set p | p in t.pages && t.pages[p].session == r
  }

  function EventsOf(t: Store, r: int): set<int> {
    set e | e in t.events && t.events[e].session == r
  }

  function LogsOf(t: Store, r: int): set<int> {
    set l | l in t.logs && t.logs[l].session == Some(r)
  }

  /** Deleting a session deletes every row that refers to it. */
  function DropSession(t: Store, r: int): Store {
    t.(sessions := t.sessions - {r}, pages := t.pages - PagesOf(t, r),
       events := t.events - EventsOf(t, r), logs := t.logs - LogsOf(t, r))
  }

  function DropLog(t: Store, l: int): Store {
    t.(logs := t.logs - {l})
  }

  /** A row may be new, above every rowid used so far, or replace one. */
  predicate SessionFits(t: Store, r: int, s: Session) {
    && s.id != "" && s.startedAt > 0
    && (r > t.lastSession || (r in t.sessions && t.sessions[r].id == s.id))
    && forall a :: a in t.sessions && t.sessions[a].id == s.id ==> a == r
  }

  predicate PageFits(t: Store, p: int, page: Page) {
    && page.session in t.sessions && 0 <= page.idx <= MAX_PAGE_INDEX
    && (p > t.lastPage || p in t.pages)
    && forall q :: q in t.pages && t.pages[q].session == page.session && t.pages[q].idx == page.idx ==> q == p
  }

  predicate EventFits(t: Store, e: int, ev: Event) {
    e > t.lastEvent && ev.session in t.sessions && forall f :: f in t.events ==> t.events[f] != ev
  }

  predicate LogFits(t: Store, l: int, lg: Log) {
    l > t.lastLog && (lg.session.Some? ==> lg.session.value in t.sessions)
  }

  lemma PutSessionOk(t: Store, r: int, s: Session)
    requires TablesOk(t) && SessionFits(t, r, s)
    ensures TablesOk(PutSession(t, r, s))
  {}

  lemma PutPageOk(t: Store, p: int, page: Page)
    requires TablesOk(t) && PageFits(t, p, page)
    ensures TablesOk(PutPage(t, p, page))
  {}

  lemma PutEventOk(t: Store, e: int, ev: Event)
    requires TablesOk(t) && EventFits(t, e, ev)
    ensures TablesOk(PutEvent(t, e, ev))
  {}

  lemma PutLogOk(t: Store, l: int, lg: Log)
    requires TablesOk(t) && LogFits(t, l, lg)
    ensures TablesOk(PutLog(t, l, lg))
  {}

  lemma DropLogOk(t: Store, l: int)
    requires TablesOk(t)
    ensures TablesOk(DropLog(t, l))
  {}

  /** A session goes with its own pages, events and logs; every other row stays. */
  lemma DropSessionRows(t: Store, r: int)
    ensures var t1 := DropSession(t, r);
            && (forall x :: x in t1.sessions <==> x in t.sessions && x != r)
            && (forall x :: x in t1.sessions ==> t1.sessions[x] == t.sessions[x])
            && (forall p :: p in t1.pages <==> p in t.pages && t.pages[p].session != r)
            && (forall p :: p in t1.pages ==> t1.pages[p] == t.pages[p])
            && (forall e :: e in t1.events <==> e in t.events && t.events[e].session != r)
            && (forall e :: e in t1.events ==> t1.events[e] == t.events[e])
            && (forall l :: l in t1.logs <==> l in t.logs && (t.logs[l].session.Some? ==> t.logs[l].session.value != r))
            && (forall l :: l in t1.logs ==> t1.logs[l] == t.logs[l])
            && t1.lastSession == t.lastSession && t1.lastPage == t.lastPage && t1.lastEvent == t.lastEvent && t1.lastLog == t.lastLog
  {
    var t1 := DropSession(t, r);
    forall p | p in t1.pages ensures p in t.pages && t.pages[p].session != r { assert p !in PagesOf(t, r); }
    forall e | e in t1.events ensures e in t.events && t.events[e].session != r { assert e !in EventsOf(t, r); }
    forall l | l in t1.logs ensures l in t.logs && t.logs[l].session != Some(r) { assert l !in LogsOf(t, r); }
  }

  lemma DropSessionOk(t: Store, r: int)
    requires TablesOk(t) && r in t.sessions
    ensures TablesOk(DropSession(t, r))
  {
    hide DropSession;
    DropSessionRows(t, r);
  }
}
