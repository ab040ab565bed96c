/** The session list: the standard scan, which is the specification, and the
    indexed query that may stand in for it. */
module SessionQuery {
  import opened Text
  import opened Rows
  import opened Tables
  import opened SearchIndex
  import opened SearchTheorems

  datatype Filter = Filter(
    siteId: int,
    browser: string,
    os: string,
    device: string,
    country: string,
    url: string,
    action: string,
    identity: string,
    minDurationMs: int,
    before: int,
    beforeId: string,
    limit: nat)

  const ACTIVITY := "action actions activity activities"
  const CUSTOM := "custom event events"
  const CLICKS := "click clicks clicked"
  const NAVIGATION := "page pages visit visits" + " " + "navigation navigated opened"
  const LOGGING := "log logs browser console" + " " + "debug info warn error"
  const ALIASES := CUSTOM + " " + ACTIVITY + " " + CLICKS + " " + NAVIGATION + " " + LOGGING

  const DRIVER_BATCH := 500
  const LISTABLE_MS := 1000

  // ---- The standard scan ----

  function Wild(term: string): string { "%" + term + "%" }

  predicate EventHit(e: Event, term: string) {
    || Like(Wild(term), Lower(e.name)) || Like(Wild(term), Lower(e.trackId))
    || Like(Wild(term), CUSTOM + " " + ACTIVITY)
    || (Lower(e.name) == "click" && Like(Wild(term), CLICKS))
  }

  predicate PageHit(p: Page, term: string) {
    || Like(Wild(term), Lower(p.url)) || Like(Wild(term), Lower(p.title))
    || Like(Wild(term), NAVIGATION + " " + ACTIVITY)
  }

  predicate LogHit(l: Log, term: string) {
    || Like(Wild(term), Lower(l.message)) || Like(Wild(term), Lower(l.url)) || Like(Wild(term), Lower(l.severity))
    || Like(Wild(term), LOGGING + " " + ACTIVITY)
  }

  /** One search term against everything a session did. */
  predicate TermHit(t: Store, r: int, term: string)
    requires r in t.sessions
  {
    || (exists e :: e in t.events && t.events[e].session == r && EventHit(t.events[e], term))
    || Like(Wild(term), Lower(t.sessions[r].initialUrl)) || Like(Wild(term), Lower(t.sessions[r].exitUrl))
    || (exists p :: p in t.pages && t.pages[p].session == r && PageHit(t.pages[p], term))
    || (exists l :: l in t.logs && t.logs[l].session == Some(r) && LogHit(t.logs[l], term))
  }

  predicate CursorAdmits(s: Session, before: int, beforeId: string) {
    s.startedAt < before || (s.startedAt == before && Less(s.id, beforeId))
  }

  /** The filters both queries spell out alike. */
  predicate Passes(t: Store, r: int, f: Filter)
    requires r in t.sessions
  {
    var s := t.sessions[r];
    && s.durationMs >= LISTABLE_MS
    && (f.siteId > 0 ==> s.siteId == f.siteId)
    && (f.browser != "" ==> s.browser == f.browser)
    && (f.os != "" ==> s.os == f.os)
    && (f.device != "" ==> s.device == f.device)
    && (f.country != "" ==> s.country == f.country)
    && (f.url != "" ==>
          || Like(Wild(f.url), s.initialUrl) || Like(Wild(f.url), s.exitUrl)
          || exists p :: p in t.pages && t.pages[p].session == r && Like(Wild(f.url), t.pages[p].url))
    && (f.identity != "" ==> Like(Wild(f.identity), s.userId) || Like(Wild(f.identity), s.clientId) || Like(Wild(f.identity), s.remoteId))
    && (f.minDurationMs > 0 ==> s.durationMs >= f.minDurationMs)
    && (if f.before != 0 && f.beforeId != "" then CursorAdmits(s, f.before, f.beforeId)
        else f.before != 0 ==> s.startedAt < f.before)
  }

  function Terms(f: Filter): seq<string> {
    Fields(Lower(f.action))
  }

  predicate EveryTermHits(t: Store, r: int, terms: seq<string>)
    requires r in t.sessions
  {
    forall i :: 0 <= i < |terms| ==> TermHit(t, r, terms[i])
  }

  function Matching(t: Store, f: Filter): (rows: set<int>)
    ensures Rowset(t, rows)
  {
    set r | r in t.sessions && Passes(t, r, f) && EveryTermHits(t, r, Terms(f))
  }

  function Take(q: seq<int>, n: nat): seq<int> {
    if |q| <= n then q else q[..n]
  }

  /** Every matching session, newest first. */
  function Listing(t: Store, f: Filter): seq<int>
    requires TablesOk(t)
  {
    NewestFirst(t, Matching(t, f))
  }

  /** listSessionsStandard: the newest matching sessions, at most the limit. */
  function Standard(t: Store, f: Filter): seq<int>
    requires TablesOk(t)
  {
    Take(Listing(t, f), f.limit)
  }

  // ---- Newest first ----

  predicate Newer(a: Session, b: Session) {
    a.startedAt > b.startedAt || (a.startedAt == b.startedAt && Less(b.id, a.id))
  }

  lemma NewerTransitive(a: Session, b: Session, c: Session)
    requires Newer(a, b) && Newer(b, c)
    ensures Newer(a, c)
  {
    if a.startedAt == b.startedAt == c.startedAt { LessTransitive(c.id, b.id, a.id); }
  }

  lemma NewerTotal(a: Session, b: Session)
    ensures !(Newer(a, b) && Newer(b, a))
    ensures a.id != b.id ==> Newer(a, b) || Newer(b, a)
  {
    LessIsStrictTotal(a.id, b.id);
  }

  predicate Rowset(t: Store, rows: set<int>) {
    forall r :: r in rows ==> r in t.sessions
  }

  ghost predicate IsNewest(t: Store, rows: set<int>, m: int)
    requires Rowset(t, rows)
  {
    m in rows && forall x :: x in rows && x != m ==> Newer(t.sessions[m], t.sessions[x])
  }

  lemma AddNewer(t: Store, rows: set<int>, y: int, m: int)
    requires Rowset(t, rows) && y in rows && IsNewest(t, rows - {y}, m)
    requires Newer(t.sessions[y], t.sessions[m])
    ensures IsNewest(t, rows, y)
  {
    forall x | x in rows && x != y ensures Newer(t.sessions[y], t.sessions[x]) {
      assert x in rows - {y};
      if x != m { NewerTransitive(t.sessions[y], t.sessions[m], t.sessions[x]); }
    }
  }

  lemma AddOlder(t: Store, rows: set<int>, y: int, m: int)
    requires Rowset(t, rows) && y in rows && IsNewest(t, rows - {y}, m)
    requires Newer(t.sessions[m], t.sessions[y])
    ensures IsNewest(t, rows, m)
  {
    forall x | x in rows && x != m ensures Newer(t.sessions[m], t.sessions[x]) {
      if x != y { assert x in rows - {y}; }
    }
  }

  lemma {:induction false} NewestExists(t: Store, rows: set<int>)
    requires TablesOk(t) && rows != {} && Rowset(t, rows)
    ensures exists m :: IsNewest(t, rows, m)
    decreases rows
  {
    var y := Member(rows);
    if rows == {y} {
      assert IsNewest(t, rows, y);
    } else {
      NewestExists(t, rows - {y});
      var m :| IsNewest(t, rows - {y}, m);
      assert t.sessions[y].id != t.sessions[m].id;
      hide TablesOk, Newer;
      NewerTotal(t.sessions[y], t.sessions[m]);
      if Newer(t.sessions[y], t.sessions[m]) { AddNewer(t, rows, y, m); } else { AddOlder(t, rows, y, m); }
    }
  }

  function Newest(t: Store, rows: set<int>): (m: int)
    requires TablesOk(t) && rows != {} && Rowset(t, rows)
    ensures m in rows && forall x :: x in rows && x != m ==> Newer(t.sessions[m], t.sessions[x])
  {
    NewestExists(t, rows);
    NewestIsOne(t, rows);
    var m :| m in rows && forall x :: x in rows && x != m ==> Newer(t.sessions[m], t.sessions[x]);
    m
  }

  lemma NewestIsOne(t: Store, rows: set<int>)
    requires Rowset(t, rows)
    ensures forall a, b :: a in rows && b in rows && a != b ==> !(Newer(t.sessions[a], t.sessions[b]) && Newer(t.sessions[b], t.sessions[a]))
  {
    forall a, b | a in rows && b in rows && a != b
      ensures !(Newer(t.sessions[a], t.sessions[b]) && Newer(t.sessions[b], t.sessions[a]))
    {
      NewerTotal(t.sessions[a], t.sessions[b]);
    }
  }

  /** ORDER BY started_at DESC, id DESC. */
  function NewestFirst(t: Store, rows: set<int>): (q: seq<int>)
    requires TablesOk(t) && Rowset(t, rows)
    ensures |q| == |rows|
    ensures forall x :: x in q <==> x in rows
    ensures InOrder(t, q)
    decreases rows
  {
    if rows == {} then [] else
      var m := Newest(t, rows);
      var rest := NewestFirst(t, rows - {m});
      NewestLeads(t, rows, m, rest);
      [m] + rest
  }

  lemma NewestLeads(t: Store, rows: set<int>, m: int, rest: seq<int>)
    requires Rowset(t, rows) && m in rows && InOrder(t, rest) && |rest| == |rows - {m}|
    requires (forall x :: x in rows && x != m ==> Newer(t.sessions[m], t.sessions[x])) && forall x :: x in rest <==> x in rows - {m}
    ensures |[m] + rest| == |rows| && InOrder(t, [m] + rest) && forall x :: x in [m] + rest <==> x in rows
  {
    hide Newer;
    var q := [m] + rest;
    forall i | 0 <= i < |q| ensures q[i] in t.sessions && (i > 0 ==> Newer(t.sessions[m], t.sessions[q[i]])) {
      if i > 0 {
        var x := rest[i - 1];
        assert x in rest;
      }
    }
  }

  predicate InOrder(t: Store, q: seq<int>) {
    && (forall i :: 0 <= i < |q| ==> q[i] in t.sessions)
    && (forall i, j :: 0 <= i < j < |q| ==> Newer(t.sessions[q[i]], t.sessions[q[j]]))
  }

  lemma HeadOnce(t: Store, q: seq<int>)
    requires InOrder(t, q) && q != []
    ensures q[0] !in q[1..]
    ensures InOrder(t, q[1..])
  {
    if q[0] in q[1..] {
      var j :| 0 <= j < |q[1..]| && q[1..][j] == q[0];
      assert q[j + 1] == q[0];
      NewerTotal(t.sessions[q[0]], t.sessions[q[j + 1]]);
    }
  }

  lemma SameHead(t: Store, p: seq<int>, q: seq<int>)
    requires InOrder(t, p) && InOrder(t, q) && p != [] && q != []
    requires p[0] in q && q[0] in p
    ensures p[0] == q[0]
  {
    var i :| 0 <= i < |q| && q[i] == p[0];
    var j :| 0 <= j < |p| && p[j] == q[0];
    NewerTotal(t.sessions[p[0]], t.sessions[q[0]]);
  }

  /** There is only one way to list a set newest first. */
  lemma {:induction false} OrderIsUnique(t: Store, p: seq<int>, q: seq<int>)
    requires InOrder(t, p) && InOrder(t, q)
    requires forall x :: x in p <==> x in q
    ensures p == q
    decreases |p|
  {
    if p != [] {
      var x := p[0];
      assert x in p;
    }
    if q != [] {
      var x := q[0];
      assert x in q;
    }
    if p != [] {
      SameHead(t, p, q);
      HeadOnce(t, p);
      HeadOnce(t, q);
      assert p == [p[0]] + p[1..] && q == [q[0]] + q[1..];
      forall x ensures x in p[1..] <==> x in q[1..] {
        assert x in p <==> x == p[0] || x in p[1..];
        assert x in q <==> x == q[0] || x in q[1..];
      }
      OrderIsUnique(t, p[1..], q[1..]);
    }
  }

  // ---- The indexed query ----

  /** A document's text: its fields joined with blanks. */
  function Rendered(b: Body): string {
    match b
    case Two(x, y) => x + " " + y
    case Three(x, y, z) => x + " " + y + " " + z
  }

  /** A quoted trigram phrase: a substring test without regard to ASCII case. */
  predicate Match(b: Body, term: string) {
    Contains(Lower(Rendered(b)), Lower(term))
  }

  predicate DocHit(db: Db, r: int, term: string) {
    exists k :: k in db.docs && k.session == r && Match(db.docs[k], term)
  }

  predicate Usable(term: string) {
    && |term| >= 3 && !Contains(ALIASES, term) && Plain(term)
    && forall i :: 0 <= i < |term| ==> term[i] < 128 as char
  }

  predicate CanUse(terms: seq<string>) {
    forall i :: 0 <= i < |terms| ==> Usable(terms[i])
  }

  /** What a search term is once lower-cased and split at blanks. */
  predicate Word(term: string) {
    term != "" && ' ' !in term && Lower(term) == term
  }

  lemma {:induction false} FieldsKeepCase(s: string)
    requires Lower(s) == s
    ensures forall i :: 0 <= i < |Fields(s)| ==> Lower(Fields(s)[i]) == Fields(s)[i]
    decreases |s|
  {
    if s != "" {
      var n := if IsBlank(s[0]) then 1 else WordEnd(s);
      assert Lower(s[n..]) == s[n..] && Lower(s[..n]) == s[..n];
      FieldsKeepCase(s[n..]);
    }
  }

  lemma TermsAreWords(f: Filter)
    ensures forall i :: 0 <= i < |Terms(f)| ==> Word(Terms(f)[i])
  {
    LowerIdempotent(f.action);
    FieldsKeepCase(Lower(f.action));
    forall i | 0 <= i < |Terms(f)| ensures Word(Terms(f)[i]) {
      assert Terms(f)[i] in Fields(Lower(f.action));
    }
  }

  // ---- A document matches exactly when its row does ----

  lemma MatchTwo(x: string, y: string, term: string)
    requires Word(term) && Plain(term)
    ensures Match(Two(x, y), term) <==> Like(Wild(term), Lower(x)) || Like(Wild(term), Lower(y))
  {
    LikeIsContains(term, Lower(x));
    LikeIsContains(term, Lower(y));
    LowerIdempotent(x);
    LowerIdempotent(y);
    JoinedContains(Lower(x), Lower(y), term);
    LowerConcat(x + " ", y);
    LowerConcat(x, " ");
    assert Lower(" ") == " ";
  }

  lemma MatchThree(x: string, y: string, z: string, term: string)
    requires Word(term) && Plain(term)
    ensures Match(Three(x, y, z), term) <==> Like(Wild(term), Lower(x)) || Like(Wild(term), Lower(y)) || Like(Wild(term), Lower(z))
  {
    MatchTwo(x, y, term);
    LikeIsContains(term, Lower(z));
    LowerIdempotent(z);
    JoinedContains(Lower(x + " " + y), Lower(z), term);
    LowerConcat(x + " " + y + " ", z);
    LowerConcat(x + " " + y, " ");
    assert Lower(" ") == " ";
  }

  lemma LowerJoined(a: string, b: string)
    requires Lower(a) == a && Lower(b) == b
    ensures Lower(a + " " + b) == a + " " + b
  {
    LowerConcat(a + " ", b);
    LowerConcat(a, " ");
    assert Lower(" ") == " ";
  }

  lemma LowerActivity()
    ensures Lower(ACTIVITY) == ACTIVITY
  {}

  lemma LowerCategories()
    ensures Lower(CUSTOM) == CUSTOM && Lower(CLICKS) == CLICKS
  {}

  lemma LowerNavigation()
    ensures Lower(NAVIGATION) == NAVIGATION
  {
    assert Lower("page pages visit visits") == "page pages visit visits";
    assert Lower("navigation navigated opened") == "navigation navigated opened";
    hide Lower;
    LowerJoined("page pages visit visits", "navigation navigated opened");
  }

  lemma LowerLogging()
    ensures Lower(LOGGING) == LOGGING
  {
    assert Lower("log logs browser console") == "log logs browser console";
    assert Lower("debug info warn error") == "debug info warn error";
    hide Lower;
    LowerJoined("log logs browser console", "debug info warn error");
  }

  /** A blank-free term missing from a list of joined texts is missing from each. */
  lemma MissingPieces(a: string, b: string, term: string)
    requires Word(term) && !Contains(a + " " + b, term)
    ensures !Contains(a, term) && !Contains(b, term)
  {
    JoinedContains(a, b, term);
  }

  lemma NeverLike(a: string, b: string, term: string)
    requires Word(term) && Plain(term) && Lower(a) == a && Lower(b) == b
    requires !Contains(a, term) && !Contains(b, term)
    ensures !Like(Wild(term), a) && !Like(Wild(term), a + " " + b)
  {
    JoinedContains(a, b, term);
    LikeIsContains(term, a);
    LikeIsContains(term, a + " " + b);
    LowerJoined(a, b);
  }

  lemma AliasPieces(c: string, a: string, k: string, n: string, l: string, term: string)
    requires Word(term) && Plain(term)
    requires Lower(c) == c && Lower(a) == a && Lower(k) == k && Lower(n) == n && Lower(l) == l
    requires !Contains(c + " " + a + " " + k + " " + n + " " + l, term)
    ensures !Like(Wild(term), c + " " + a) && !Like(Wild(term), k)
    ensures !Like(Wild(term), n + " " + a) && !Like(Wild(term), l + " " + a)
  {
    hide Word, Like, Lower, Contains, Plain;
    MissingPieces(c + " " + a + " " + k + " " + n, l, term);
    MissingPieces(c + " " + a + " " + k, n, term);
    MissingPieces(c + " " + a, k, term);
    MissingPieces(c, a, term);
    NeverLike(c, a, term);
    NeverLike(k, a, term);
    NeverLike(n, a, term);
    NeverLike(l, a, term);
  }

  /** A usable term meets none of the category aliases, so only the stored
      fields can make a row match. */
  lemma AliasesNeverMatch(term: string)
    requires Word(term) && Usable(term)
    ensures !Like(Wild(term), CUSTOM + " " + ACTIVITY) && !Like(Wild(term), CLICKS)
    ensures !Like(Wild(term), NAVIGATION + " " + ACTIVITY) && !Like(Wild(term), LOGGING + " " + ACTIVITY)
  {
    hide Like, Lower, Contains, Plain, Word;
    LowerActivity();
    LowerCategories();
    LowerNavigation();
    LowerLogging();
    AliasPieces(CUSTOM, ACTIVITY, CLICKS, NAVIGATION, LOGGING, term);
  }

  lemma RowMatches(t: Store, r: int, term: string)
    requires r in t.sessions && Word(term) && Usable(term)
    ensures TermHit(t, r, term) <==>
              || Match(SessionBody(t.sessions[r]), term)
              || (exists p :: p in t.pages && t.pages[p].session == r && Match(PageBody(t.pages[p]), term))
              || (exists e :: e in t.events && t.events[e].session == r && Match(EventBody(t.events[e]), term))
              || (exists l :: l in t.logs && t.logs[l].session == Some(r) && Match(LogBody(t.logs[l]), term))
  {
    AliasesNeverMatch(term);
    hide Like, Match, Contains, Plain;
    MatchTwo(t.sessions[r].initialUrl, t.sessions[r].exitUrl, term);
    forall p | p in t.pages ensures PageHit(t.pages[p], term) <==> Match(PageBody(t.pages[p]), term) {
      MatchTwo(t.pages[p].url, t.pages[p].title, term);
    }
    forall e | e in t.events ensures EventHit(t.events[e], term) <==> Match(EventBody(t.events[e]), term) {
      MatchTwo(t.events[e].name, t.events[e].trackId, term);
    }
    forall l | l in t.logs ensures LogHit(t.logs[l], term) <==> Match(LogBody(t.logs[l]), term) {
      MatchThree(t.logs[l].message, t.logs[l].url, t.logs[l].severity, term);
    }
  }

  /** An exact index finds a session under a usable term exactly when the scan
      of its rows does. */
  lemma DocHitIsTermHit(db: Db, r: int, term: string)
    requires Exact(db) && r in db.t.sessions && Word(term) && Usable(term)
    ensures DocHit(db, r, term) <==> TermHit(db.t, r, term)
  {
    RowMatches(db.t, r, term);
    hide TermHit, Match, Word, Usable;
    if DocHit(db, r, term) {
      var k :| k in db.docs && k.session == r && Match(db.docs[k], term);
      DocOfRow(db, k, term);
    }
    RowHasDoc(db, r, term);
  }

  lemma DocOfRow(db: Db, k: DocKey, term: string)
    requires Exact(db) && k in db.docs && Match(db.docs[k], term)
    ensures
      || (k.session in db.t.sessions && Match(SessionBody(db.t.sessions[k.session]), term))
      || (exists p :: p in db.t.pages && db.t.pages[p].session == k.session && Match(PageBody(db.t.pages[p]), term))
      || (exists e :: e in db.t.events && db.t.events[e].session == k.session && Match(EventBody(db.t.events[e]), term))
      || (exists l :: l in db.t.logs && db.t.logs[l].session == Some(k.session) && Match(LogBody(db.t.logs[l]), term))
  {
    hide Match;
    if k in db.eventDoc.Values {
      var e := KeyOf(db.eventDoc, k);
    } else if k in db.logDoc.Values {
      var l := KeyOf(db.logDoc, k);
    }
  }

  lemma RowHasDoc(db: Db, r: int, term: string)
    requires Exact(db) && r in db.t.sessions
    ensures Match(SessionBody(db.t.sessions[r]), term) ==> DocHit(db, r, term)
    ensures forall p :: p in db.t.pages && db.t.pages[p].session == r && Match(PageBody(db.t.pages[p]), term) ==> DocHit(db, r, term)
    ensures forall e :: e in db.t.events && db.t.events[e].session == r && Match(EventBody(db.t.events[e]), term) ==> DocHit(db, r, term)
    ensures forall l :: l in db.t.logs && db.t.logs[l].session == Some(r) && Match(LogBody(db.t.logs[l]), term) ==> DocHit(db, r, term)
  {
    hide Match;
    assert DocKey(r, 0) in SessionKeys(db.t);
    forall p | p in db.t.pages && db.t.pages[p].session == r && Match(PageBody(db.t.pages[p]), term) ensures DocHit(db, r, term) {
      assert PageKey(db.t.pages[p]) in PageKeys(db.t);
    }
    forall e | e in db.t.events && db.t.events[e].session == r && Match(EventBody(db.t.events[e]), term) ensures DocHit(db, r, term) {
      assert e in db.eventDoc;
    }
    forall l | l in db.t.logs && db.t.logs[l].session == Some(r) && Match(LogBody(db.t.logs[l]), term) ensures DocHit(db, r, term) {
      assert l in SessionLogs(db.t);
    }
  }
}
