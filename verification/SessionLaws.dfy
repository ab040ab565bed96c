/** What a session list holds, field by field of the filter and in so many words:
    which column each field looks at, what a search term finds, and the order. */
module SessionLaws {
  import opened Text
  import opened Rows
  import opened Tables
  import opened SearchIndex
  import opened SessionQuery

  const NO_FILTER := Filter(0, "", "", "", "", "", "", "", 0, 0, "", 0)

  /** With no filter, exactly the sessions of a second or more are listed. */
  lemma Unfiltered(t: Store, limit: nat, r: int)
    ensures r in Matching(t, NO_FILTER.(limit := limit)) <==> r in t.sessions && t.sessions[r].durationMs >= 1000
  {
    assert Lower("") == "";
  }

  // ---- One field at a time ----

  lemma ByBrowser(t: Store, f: Filter, r: int)
    ensures r in Matching(t, f) <==> r in Matching(t, f.(browser := "")) && (f.browser == "" || t.sessions[r].browser == f.browser)
  {
    hide EveryTermHits, Like, Less, Fields, Lower;
  }

  lemma ByOs(t: Store, f: Filter, r: int)
    ensures r in Matching(t, f) <==> r in Matching(t, f.(os := "")) && (f.os == "" || t.sessions[r].os == f.os)
  {
    hide EveryTermHits, Like, Less, Fields, Lower;
  }

  lemma ByDevice(t: Store, f: Filter, r: int)
    ensures r in Matching(t, f) <==> r in Matching(t, f.(device := "")) && (f.device == "" || t.sessions[r].device == f.device)
  {
    hide EveryTermHits, Like, Less, Fields, Lower;
  }

  lemma ByCountry(t: Store, f: Filter, r: int)
    ensures r in Matching(t, f) <==> r in Matching(t, f.(country := "")) && (f.country == "" || t.sessions[r].country == f.country)
  {
    hide EveryTermHits, Like, Less, Fields, Lower;
  }

  lemma BySite(t: Store, f: Filter, r: int)
    ensures r in Matching(t, f) <==> r in Matching(t, f.(siteId := 0)) && (f.siteId <= 0 || t.sessions[r].siteId == f.siteId)
  {
    hide EveryTermHits, Like, Less, Fields, Lower;
  }

  lemma ByDuration(t: Store, f: Filter, r: int)
    ensures r in Matching(t, f) <==>
              r in Matching(t, f.(minDurationMs := 0)) && (f.minDurationMs <= 0 || t.sessions[r].durationMs >= f.minDurationMs)
  {
    hide EveryTermHits, Like, Less, Fields, Lower;
  }

  /** The cursor: older sessions, and with an id those of the same moment before it. */
  lemma ByCursor(t: Store, f: Filter, r: int)
    ensures r in Matching(t, f) <==>
              && r in Matching(t, f.(before := 0, beforeId := ""))
              && (f.before == 0 || t.sessions[r].startedAt < f.before
                  || (f.beforeId != "" && t.sessions[r].startedAt == f.before && Less(t.sessions[r].id, f.beforeId)))
  {
    hide EveryTermHits, Like, Less, Fields, Lower;
  }

  /** Entry, exit or any page in between. */
  lemma ByUrl(t: Store, f: Filter, r: int)
    ensures r in Matching(t, f) <==>
              && r in Matching(t, f.(url := ""))
              && (f.url == ""
                  || Like("%" + f.url + "%", t.sessions[r].initialUrl) || Like("%" + f.url + "%", t.sessions[r].exitUrl)
                  || exists p :: p in t.pages && t.pages[p].session == r && Like("%" + f.url + "%", t.pages[p].url))
  {
    hide EveryTermHits, Like, Less, Fields, Lower;
  }

  /** Without wildcards in it, a case-blind part of one of those. */
  lemma ByPlainUrl(t: Store, f: Filter, r: int)
    requires '%' !in f.url && '_' !in f.url
    ensures r in Matching(t, f) <==>
              && r in Matching(t, f.(url := ""))
              && (f.url == ""
                  || Contains(Lower(t.sessions[r].initialUrl), Lower(f.url)) || Contains(Lower(t.sessions[r].exitUrl), Lower(f.url))
                  || exists p :: p in t.pages && t.pages[p].session == r && Contains(Lower(t.pages[p].url), Lower(f.url)))
  {
    ByUrl(t, f, r);
    hide Like, Contains, Matching;
    if r in t.sessions {
      LikeIsContains(f.url, t.sessions[r].initialUrl);
      LikeIsContains(f.url, t.sessions[r].exitUrl);
    }
    forall p | p in t.pages ensures Like("%" + f.url + "%", t.pages[p].url) <==> Contains(Lower(t.pages[p].url), Lower(f.url)) {
      LikeIsContains(f.url, t.pages[p].url);
    }
  }

  /** Any of the three ids a visitor may have. */
  lemma ByIdentity(t: Store, f: Filter, r: int)
    ensures r in Matching(t, f) <==>
              && r in Matching(t, f.(identity := ""))
              && (f.identity == ""
                  || Like("%" + f.identity + "%", t.sessions[r].userId) || Like("%" + f.identity + "%", t.sessions[r].clientId)
                  || Like("%" + f.identity + "%", t.sessions[r].remoteId))
  {
    hide EveryTermHits, Like, Less, Fields, Lower;
  }

  lemma ByPlainIdentity(t: Store, f: Filter, r: int)
    requires '%' !in f.identity && '_' !in f.identity
    ensures r in Matching(t, f) <==>
              && r in Matching(t, f.(identity := ""))
              && (f.identity == ""
                  || Contains(Lower(t.sessions[r].userId), Lower(f.identity)) || Contains(Lower(t.sessions[r].clientId), Lower(f.identity))
                  || Contains(Lower(t.sessions[r].remoteId), Lower(f.identity)))
  {
    ByIdentity(t, f, r);
    hide Like, Contains, Matching;
    if r in t.sessions {
      LikeIsContains(f.identity, t.sessions[r].userId);
      LikeIsContains(f.identity, t.sessions[r].clientId);
      LikeIsContains(f.identity, t.sessions[r].remoteId);
    }
  }

  /** Every word of the search must be found in something the session did. */
  lemma ByAction(t: Store, f: Filter, r: int)
    ensures r in Matching(t, f) <==>
              && r in Matching(t, f.(action := ""))
              && forall i :: 0 <= i < |Fields(Lower(f.action))| ==> TermHit(t, r, Fields(Lower(f.action))[i])
  {
    hide TermHit, Like, Less, Fields, Lower;
    var none := f.(action := "");
    NoTerms(none);
    if r in t.sessions {
      assert Passes(t, r, none) == Passes(t, r, f);
      assert EveryTermHits(t, r, Terms(none));
      assert r in Matching(t, none) <==> Passes(t, r, f);
      assert r in Matching(t, f) <==> Passes(t, r, f) && EveryTermHits(t, r, Fields(Lower(f.action)));
    }
  }

  lemma NoTerms(f: Filter)
    requires f.action == ""
    ensures Terms(f) == []
  {
    assert Lower("") == "" && Fields("") == [];
  }

  // ---- What a word finds ----

  /** A word is a case-blind part of one of the texts stored with a tracked event, or
      of the names of its category. */
  lemma EventFinds(e: Event, term: string)
    requires term != "" && ' ' !in term && '%' !in term && '_' !in term && Lower(term) == term
    ensures EventHit(e, term) <==>
              || Contains(Lower(e.name), term) || Contains(Lower(e.trackId), term)
              || Contains("custom event events" + " " + "action actions activity activities", term)
              || (Lower(e.name) == "click" && Contains("click clicks clicked", term))
  {
    LowerActivity();
    LowerCategories();
    hide Lower, Like, Contains;
    LowerJoined(CUSTOM, ACTIVITY);
    ColumnFinds(e.name, term);
    ColumnFinds(e.trackId, term);
    TextFinds(CUSTOM + " " + ACTIVITY, term);
    TextFinds(CLICKS, term);
  }

  lemma PageFinds(p: Page, term: string)
    requires term != "" && ' ' !in term && '%' !in term && '_' !in term && Lower(term) == term
    ensures PageHit(p, term) <==>
              || Contains(Lower(p.url), term) || Contains(Lower(p.title), term)
              || Contains("page pages visit visits" + " " + "navigation navigated opened" + " " + "action actions activity activities", term)
  {
    LowerActivity();
    LowerNavigation();
    hide Lower, Like, Contains;
    LowerJoined(NAVIGATION, ACTIVITY);
    ColumnFinds(p.url, term);
    ColumnFinds(p.title, term);
    TextFinds(NAVIGATION + " " + ACTIVITY, term);
  }

  lemma LogFinds(l: Log, term: string)
    requires term != "" && ' ' !in term && '%' !in term && '_' !in term && Lower(term) == term
    ensures LogHit(l, term) <==>
              || Contains(Lower(l.message), term) || Contains(Lower(l.url), term) || Contains(Lower(l.severity), term)
              || Contains("log logs browser console" + " " + "debug info warn error" + " " + "action actions activity activities", term)
  {
    LowerActivity();
    LowerLogging();
    hide Lower, Like, Contains;
    LowerJoined(LOGGING, ACTIVITY);
    ColumnFinds(l.message, term);
    ColumnFinds(l.url, term);
    ColumnFinds(l.severity, term);
    TextFinds(LOGGING + " " + ACTIVITY, term);
  }

  lemma ColumnFinds(s: string, term: string)
    requires Word(term) && Plain(term)
    ensures Like(Wild(term), Lower(s)) <==> Contains(Lower(s), term)
  {
    LikeIsContains(term, Lower(s));
    LowerIdempotent(s);
  }

  lemma TextFinds(s: string, term: string)
    requires Word(term) && Plain(term) && Lower(s) == s
    ensures Like(Wild(term), s) <==> Contains(s, term)
  {
    LikeIsContains(term, s);
  }

  /** A session is found by its own events, its entry and exit, its pages and its logs,
      and by nothing of another session. */
  lemma SessionFinds(t: Store, r: int, term: string)
    requires r in t.sessions && term != "" && ' ' !in term && '%' !in term && '_' !in term && Lower(term) == term
    ensures TermHit(t, r, term) <==>
              || (exists e :: e in t.events && t.events[e].session == r && EventHit(t.events[e], term))
              || Contains(Lower(t.sessions[r].initialUrl), term) || Contains(Lower(t.sessions[r].exitUrl), term)
              || (exists p :: p in t.pages && t.pages[p].session == r && PageHit(t.pages[p], term))
              || (exists l :: l in t.logs && t.logs[l].session == Some(r) && LogHit(t.logs[l], term))
  {
    hide Like, Contains, Lower, EventHit, PageHit, LogHit;
    ColumnFinds(t.sessions[r].initialUrl, term);
    ColumnFinds(t.sessions[r].exitUrl, term);
  }

  /** The index may stand in for words of three characters or more, in ASCII, without
      wildcards, that are in no category's name. */
  lemma UsableIs(term: string)
    ensures Usable(term) <==>
              && |term| >= 3 && (forall i :: 0 <= i < |term| ==> term[i] != '%' && term[i] != '_' && term[i] as int < 128)
              && !Contains("custom event events" + " " + "action actions activity activities" + " " + "click clicks clicked" + " "
                           + ("page pages visit visits" + " " + "navigation navigated opened") + " "
                           + ("log logs browser console" + " " + "debug info warn error"), term)
  {
    hide Contains;
  }

  /** What the index holds of each row. */
  lemma IndexedTexts(s: Session, p: Page, e: Event, l: Log)
    ensures Rendered(SessionBody(s)) == s.initialUrl + " " + s.exitUrl
    ensures Rendered(PageBody(p)) == p.url + " " + p.title
    ensures Rendered(EventBody(e)) == e.name + " " + e.trackId
    ensures Rendered(LogBody(l)) == l.message + " " + l.url + " " + l.severity
  {}

  // ---- The order and the cut ----

  /** The list is the newest matches, as many as asked for: newer ones first, those of
      one moment by descending id, and none newer left out. */
  lemma ListedIs(t: Store, f: Filter)
    requires TablesOk(t)
    ensures var out := Standard(t, f);
            && |out| == (if |Matching(t, f)| < f.limit then |Matching(t, f)| else f.limit)
            && (forall x :: x in out ==> x in Matching(t, f))
            && (forall i, j :: 0 <= i < j < |out| ==>
                  var a, b := t.sessions[out[i]], t.sessions[out[j]];
                  a.startedAt > b.startedAt || (a.startedAt == b.startedAt && Less(b.id, a.id)))
            && (forall x, y :: x in Matching(t, f) && x !in out && y in out ==>
                  var a, b := t.sessions[y], t.sessions[x];
                  a.startedAt > b.startedAt || (a.startedAt == b.startedAt && Less(b.id, a.id)))
  {
    hide Matching, TablesOk, Less;
    var all, out := Listing(t, f), Standard(t, f);
    forall x | x in out ensures x in all { TakenFrom(all, f.limit, x); }
    forall x, y | x in Matching(t, f) && x !in out && y in out ensures Newer(t.sessions[y], t.sessions[x]) {
      assert x in all;
      TakenFirst(all, f.limit, y, x);
    }
  }

  lemma TakenFrom(q: seq<int>, n: nat, x: int)
    requires x in Take(q, n)
    ensures x in q
  {}

  lemma TakenFirst(q: seq<int>, n: nat, y: int, x: int)
    requires y in Take(q, n) && x in q && x !in Take(q, n)
    ensures exists i, j :: 0 <= i < j < |q| && q[i] == y && q[j] == x
  {
    var i :| 0 <= i < |Take(q, n)| && Take(q, n)[i] == y;
    var j :| 0 <= j < |q| && q[j] == x;
    assert forall k :: 0 <= k < |Take(q, n)| ==> Take(q, n)[k] == q[k];
  }
}
