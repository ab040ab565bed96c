/** The loop that answers a session list from the search index, its refinement
    of the standard scan, and paging by cursor. */
module SessionList {
  import opened Text
  import opened Rows
  import opened Tables
  import opened SearchIndex
  import opened SearchTheorems
  import opened SessionQuery

  predicate Admits(s: Session, before: int, beforeId: string) {
    if beforeId != "" then CursorAdmits(s, before, beforeId) else before != 0 ==> s.startedAt < before
  }

  /** Sessions with a document for the first term, past the cursor. */
  function Candidates(db: Db, term: string, before: int, beforeId: string): (rows: set<int>)
    ensures Rowset(db.t, rows)
  {
    set r | r in db.t.sessions && DocHit(db, r, term) && Admits(db.t.sessions[r], before, beforeId)
  }

  /** The candidates in the order the batches deliver them. */
  function Ranked(db: Db, term: string, before: int, beforeId: string): seq<int>
    requires TablesOk(db.t)
  {
    NewestFirst(db.t, Candidates(db, term, before, beforeId))
  }

  function CandidateBatch(db: Db, term: string, before: int, beforeId: string): seq<int>
    requires TablesOk(db.t)
  {
    Take(Ranked(db, term, before, beforeId), DRIVER_BATCH)
  }

  /** The ordinary filters and the remaining terms. */
  predicate Accepts(db: Db, r: int, f: Filter, others: seq<string>)
    requires r in db.t.sessions
  {
    Passes(db.t, r, f) && forall i :: 0 <= i < |others| ==> DocHit(db, r, others[i])
  }

  function Accepted(db: Db, rows: set<int>, f: Filter, others: seq<string>): (kept: set<int>)
    requires Rowset(db.t, rows)
    ensures Rowset(db.t, kept)
  {
    set r | r in rows && Accepts(db, r, f, others)
  }

  function Kept(db: Db, q: seq<int>, f: Filter, others: seq<string>): (kept: seq<int>)
    decreases |q|
  {
    if q == [] then []
    else if q[0] in db.t.sessions && Accepts(db, q[0], f, others) then [q[0]] + Kept(db, q[1..], f, others)
    else Kept(db, q[1..], f, others)
  }

  function Members(q: seq<int>): set<int> {
    set x | x in q
  }

  // ---- Cursors ----

  lemma AdmitsOlder(a: Session, b: Session, before: int, beforeId: string)
    requires Admits(a, before, beforeId) && Newer(a, b)
    ensures Admits(b, before, beforeId)
  {
    if beforeId != "" && a.startedAt == b.startedAt == before { LessTransitive(b.id, a.id, beforeId); }
  }

  lemma RowsAfter(t: Store, q: seq<int>, i: nat, x: int)
    requires InOrder(t, q) && 0 < i <= |q| && x in q
    ensures x in t.sessions && q[i - 1] in t.sessions
    ensures x in q[i..] <==> Newer(t.sessions[q[i - 1]], t.sessions[x])
  {
    var j :| 0 <= j < |q| && q[j] == x;
    hide Newer;
    NewerTotal(t.sessions[q[i - 1]], t.sessions[x]);
    if j >= i { assert q[i..][j - i] == x; }
    if x in q[i..] {
      var k :| 0 <= k < |q[i..]| && q[i..][k] == x;
      assert q[i + k] == x;
    }
  }

  /** The rows after the i-th in a list newest first are those its cursor admits. */
  lemma AfterRow(t: Store, rows: set<int>, i: nat)
    requires TablesOk(t) && Rowset(t, rows) && 0 < i <= |rows|
    ensures var q := NewestFirst(t, rows); q[i - 1] in t.sessions
    ensures var q := NewestFirst(t, rows);
            var rest := set x | x in rows && Newer(t.sessions[q[i - 1]], t.sessions[x]);
            NewestFirst(t, rest) == q[i..]
  {
    var q := NewestFirst(t, rows);
    hide TablesOk, Newer;
    var rest := set x | x in rows && Newer(t.sessions[q[i - 1]], t.sessions[x]);
    forall x ensures x in q[i..] <==> x in rest {
      assert x in q[i..] ==> x in q;
      if x in q { RowsAfter(t, q, i, x); }
    }
    OrderIsUnique(t, NewestFirst(t, rest), q[i..]);
  }

  lemma CursorAtRow(db: Db, term: string, before: int, beforeId: string, lastRow: int)
    requires TablesOk(db.t) && lastRow in Candidates(db, term, before, beforeId)
    ensures var last := db.t.sessions[lastRow];
            Candidates(db, term, last.startedAt, last.id)
            == set x | x in Candidates(db, term, before, beforeId) && Newer(last, db.t.sessions[x])
  {
    var last := db.t.sessions[lastRow];
    assert last.id != "";
    hide TablesOk, DocHit;
    forall x | x in Candidates(db, term, last.startedAt, last.id) ensures Admits(db.t.sessions[x], before, beforeId) {
      AdmitsOlder(last, db.t.sessions[x], before, beforeId);
    }
  }

  /** Moving the cursor to the last candidate of a batch leaves exactly the
      candidates not yet seen. */
  lemma NextCandidates(db: Db, term: string, before: int, beforeId: string, i: nat)
    requires TablesOk(db.t) && 0 < i <= |Ranked(db, term, before, beforeId)|
    ensures var q := Ranked(db, term, before, beforeId);
            && q[i - 1] in db.t.sessions
            && Ranked(db, term, db.t.sessions[q[i - 1]].startedAt, db.t.sessions[q[i - 1]].id) == q[i..]
  {
    var rows := Candidates(db, term, before, beforeId);
    hide TablesOk, Candidates, Newer, InOrder;
    AfterRow(db.t, rows, i);
    var lastRow := Ranked(db, term, before, beforeId)[i - 1];
    assert lastRow in NewestFirst(db.t, rows);
    CursorAtRow(db, term, before, beforeId, lastRow);
  }

  // ---- Filtering candidates ----

  lemma {:induction false} KeptConcat(db: Db, p: seq<int>, q: seq<int>, f: Filter, others: seq<string>)
    ensures Kept(db, p + q, f, others) == Kept(db, p, f, others) + Kept(db, q, f, others)
    decreases |p|
  {
    hide Accepts;
    if p == [] {
      assert p + q == q;
    } else {
      assert (p + q)[1..] == p[1..] + q;
      KeptConcat(db, p[1..], q, f, others);
    }
  }

  lemma {:induction false} KeptMembers(db: Db, q: seq<int>, f: Filter, others: seq<string>)
    ensures forall x :: x in Kept(db, q, f, others) <==> x in q && x in db.t.sessions && Accepts(db, x, f, others)
    decreases |q|
  {
    hide Accepts;
    if q != [] {
      KeptMembers(db, q[1..], f, others);
      assert q == [q[0]] + q[1..];
    }
  }

  lemma {:induction false} KeptInOrder(db: Db, q: seq<int>, f: Filter, others: seq<string>)
    requires InOrder(db.t, q)
    ensures InOrder(db.t, Kept(db, q, f, others))
    decreases |q|
  {
    hide Accepts, Newer;
    if q != [] {
      var rest := Kept(db, q[1..], f, others);
      KeptInOrder(db, q[1..], f, others);
      KeptMembers(db, q[1..], f, others);
      forall i | 0 <= i < |rest| ensures Newer(db.t.sessions[q[0]], db.t.sessions[rest[i]]) {
        var x := rest[i];
        assert x in rest;
        var j :| 0 <= j < |q[1..]| && q[1..][j] == x;
        assert q[j + 1] == x;
      }
    }
  }

  /** Filtering an ordered list gives the ordered list of the accepted rows. */
  lemma KeptIsNewestFirst(db: Db, rows: set<int>, f: Filter, others: seq<string>)
    requires TablesOk(db.t) && Rowset(db.t, rows)
    ensures Kept(db, NewestFirst(db.t, rows), f, others) == NewestFirst(db.t, Accepted(db, rows, f, others))
  {
    var q := NewestFirst(db.t, rows);
    hide TablesOk, Accepts, Newer;
    KeptMembers(db, q, f, others);
    KeptInOrder(db, q, f, others);
    OrderIsUnique(db.t, Kept(db, q, f, others), NewestFirst(db.t, Accepted(db, rows, f, others)));
  }

  /** Re-sorting what the batches delivered changes nothing. */
  lemma SortedAlready(db: Db, q: seq<int>, n: nat, f: Filter, others: seq<string>)
    requires TablesOk(db.t) && InOrder(db.t, q) && n <= |q|
    ensures var kept := Kept(db, q[..n], f, others);
            Rowset(db.t, Members(kept)) && NewestFirst(db.t, Members(kept)) == kept
  {
    var kept := Kept(db, q[..n], f, others);
    hide TablesOk, Accepts, Newer;
    KeptInOrder(db, q[..n], f, others);
    OrderIsUnique(db.t, NewestFirst(db.t, Members(kept)), kept);
  }

  lemma TakeOfLonger(p: seq<int>, q: seq<int>, n: nat)
    requires |p| >= n || q == []
    ensures Take(p, n) == Take(p + q, n)
  {
    if q == [] { assert p + q == p; }
  }

  // ---- The loop ----

  /** Where the loop stands: n candidates seen, the cursor just past them, and
      the accepted ones kept. */
  ghost predicate At(db: Db, f: Filter, terms: seq<string>, n: nat, before: int, beforeId: string, accepted: seq<int>)
    requires TablesOk(db.t) && terms != []
  {
    var all := Ranked(db, terms[0], f.before, f.beforeId);
    && n <= |all|
    && Ranked(db, terms[0], before, beforeId) == all[n..]
    && accepted == Kept(db, all[..n], f, terms[1..])
  }

  lemma BatchOf(db: Db, term: string, before: int, beforeId: string)
    requires TablesOk(db.t)
    ensures var batch := CandidateBatch(db, term, before, beforeId);
            var q := Ranked(db, term, before, beforeId);
            && |batch| <= |q| && batch == q[..|batch|] && (batch == [] ==> q == [])
            && (batch != [] ==>
                  && batch[|batch| - 1] in db.t.sessions
                  && var last := db.t.sessions[batch[|batch| - 1]];
                  Ranked(db, term, last.startedAt, last.id) == q[|batch|..])
  {
    var batch := CandidateBatch(db, term, before, beforeId);
    if batch != [] {
      hide TablesOk, Candidates;
      NextCandidates(db, term, before, beforeId, |batch|);
    }
  }

  lemma Advance(db: Db, f: Filter, terms: seq<string>, n: nat, before: int, beforeId: string, accepted: seq<int>)
    requires TablesOk(db.t) && terms != [] && At(db, f, terms, n, before, beforeId, accepted)
    ensures var batch := CandidateBatch(db, terms[0], before, beforeId);
            && (batch == [] ==> n == |Ranked(db, terms[0], f.before, f.beforeId)|)
            && (batch != [] ==>
                  && batch[|batch| - 1] in db.t.sessions
                  && n + |batch| <= |Ranked(db, terms[0], f.before, f.beforeId)|
                  && var last := db.t.sessions[batch[|batch| - 1]];
                  At(db, f, terms, n + |batch|, last.startedAt, last.id, accepted + Kept(db, batch, f, terms[1..])))
  {
    hide TablesOk, Ranked, CandidateBatch, Kept;
    BatchOf(db, terms[0], before, beforeId);
    var all := Ranked(db, terms[0], f.before, f.beforeId);
    var batch := CandidateBatch(db, terms[0], before, beforeId);
    var m := |batch|;
    KeptConcat(db, all[..n], batch, f, terms[1..]);
    assert all[n..][..m] == all[n..n + m];
    assert all[..n] + batch == all[..n + m];
    assert all[n..][m..] == all[n + m..];
  }

  lemma TakeKept(db: Db, all: seq<int>, n: nat, f: Filter, others: seq<string>)
    requires n <= |all|
    requires |Kept(db, all[..n], f, others)| >= f.limit || n == |all|
    ensures Take(Kept(db, all[..n], f, others), f.limit) == Take(Kept(db, all, f, others), f.limit)
  {
    KeptNothing(db, f, others);
    hide Kept;
    KeptConcat(db, all[..n], all[n..], f, others);
    assert all == all[..n] + all[n..];
    TakeOfLonger(Kept(db, all[..n], f, others), Kept(db, all[n..], f, others), f.limit);
  }

  lemma Enough(db: Db, f: Filter, terms: seq<string>, n: nat, before: int, beforeId: string, accepted: seq<int>)
    requires TablesOk(db.t) && terms != [] && At(db, f, terms, n, before, beforeId, accepted)
    requires |accepted| >= f.limit || n == |Ranked(db, terms[0], f.before, f.beforeId)|
    ensures Rowset(db.t, Members(accepted)) && NewestFirst(db.t, Members(accepted)) == accepted
    ensures Take(accepted, f.limit) == Take(Answer(db, f, terms), f.limit)
  {
    hide TablesOk, Ranked, Answer, InOrder, Rowset, NewestFirst, Kept, Members, Take;
    var all := Ranked(db, terms[0], f.before, f.beforeId);
    TakeKept(db, all, n, f, terms[1..]);
    RankedInOrder(db, terms[0], f.before, f.beforeId);
    AnswerIsKept(db, f, terms);
    SortedAlready(db, all, n, f, terms[1..]);
  }

  lemma KeptNothing(db: Db, f: Filter, others: seq<string>)
    ensures Kept(db, [], f, others) == []
  {}

  lemma RankedInOrder(db: Db, term: string, before: int, beforeId: string)
    requires TablesOk(db.t)
    ensures InOrder(db.t, Ranked(db, term, before, beforeId))
  {
    hide TablesOk, Candidates;
  }

  /** The newest accepted candidates overall. */
  function Answer(db: Db, f: Filter, terms: seq<string>): seq<int>
    requires TablesOk(db.t) && terms != []
  {
    NewestFirst(db.t, Accepted(db, Candidates(db, terms[0], f.before, f.beforeId), f, terms[1..]))
  }

  lemma AnswerIsKept(db: Db, f: Filter, terms: seq<string>)
    requires TablesOk(db.t) && terms != []
    ensures Answer(db, f, terms) == Kept(db, Ranked(db, terms[0], f.before, f.beforeId), f, terms[1..])
  {
    var rows := Candidates(db, terms[0], f.before, f.beforeId);
    hide TablesOk, Candidates, Accepts;
    KeptIsNewestFirst(db, rows, f, terms[1..]);
  }

  /** Cursor batches of 500 candidates, filtered, re-sorted and cut to the limit,
      give the newest accepted candidates overall. */
  method ListIndexed(db: Db, f: Filter, terms: seq<string>) returns (out: seq<int>)
    requires TablesOk(db.t) && terms != []
    ensures out == Take(Answer(db, f, terms), f.limit)
  {
    hide TablesOk, Ranked, CandidateBatch, Kept, Answer, NewestFirst;
    var before, beforeId := f.before, f.beforeId;
    var accepted: seq<int> := [];
    KeptNothing(db, f, terms[1..]);
    ghost var n := 0;
    while |accepted| < f.limit
      invariant At(db, f, terms, n, before, beforeId, accepted)
      decreases |Ranked(db, terms[0], f.before, f.beforeId)| - n
    {
      Advance(db, f, terms, n, before, beforeId, accepted);
      var batch := CandidateBatch(db, terms[0], before, beforeId);
      if batch == [] {
        break;
      }
      var last := db.t.sessions[batch[|batch| - 1]];
      before, beforeId := last.startedAt, last.id;
      accepted := accepted + Kept(db, batch, f, terms[1..]);
      n := n + |batch|;
    }
    Enough(db, f, terms, n, before, beforeId, accepted);
    accepted := NewestFirst(db.t, Members(accepted));
    out := Take(accepted, f.limit);
  }

  // ---- Refinement ----

  /** With an exact index, the first term's candidates that pass the filters and
      match the other terms are the rows the standard scan finds. */
  lemma AcceptedIsMatching(db: Db, f: Filter)
    requires Exact(db) && Terms(f) != [] && CanUse(Terms(f))
    requires f.beforeId != "" ==> f.before != 0
    ensures Accepted(db, Candidates(db, Terms(f)[0], f.before, f.beforeId), f, Terms(f)[1..]) == Matching(db.t, f)
  {
    var terms := Terms(f);
    TermsAreWords(f);
    hide Exact, Terms, TermHit, DocHit, Word;
    forall r, i | r in db.t.sessions && 0 <= i < |terms| ensures DocHit(db, r, terms[i]) <==> TermHit(db.t, r, terms[i]) {
      DocHitIsTermHit(db, r, terms[i]);
    }
    forall r | r in db.t.sessions
      ensures r in Accepted(db, Candidates(db, terms[0], f.before, f.beforeId), f, terms[1..]) <==> r in Matching(db.t, f)
    {
      hide Usable;
      assert Passes(db.t, r, f) ==> Admits(db.t.sessions[r], f.before, f.beforeId);
      hide Passes, Admits;
      AllTerms(db, r, terms);
    }
  }

  lemma AllTerms(db: Db, r: int, terms: seq<string>)
    requires terms != []
    ensures (forall i :: 0 <= i < |terms| ==> DocHit(db, r, terms[i])) <==>
            DocHit(db, r, terms[0]) && forall i :: 0 <= i < |terms[1..]| ==> DocHit(db, r, terms[1..][i])
  {
    hide DocHit;
    if DocHit(db, r, terms[0]) && forall i :: 0 <= i < |terms[1..]| ==> DocHit(db, r, terms[1..][i]) {
      forall i | 0 <= i < |terms| ensures DocHit(db, r, terms[i]) {
        if i > 0 { assert terms[1..][i - 1] == terms[i]; }
      }
    }
  }

  /** ListSessionsContext: the index answers only while it is complete and every
      term is one it can decide; the answer is always the standard scan's. */
  method ListSessions(db: Db, f: Filter) returns (out: seq<int>, indexed: bool)
    requires Inv(db)
    requires f.beforeId != "" ==> f.before != 0
    ensures TablesOk(db.t) && out == Standard(db.t, f)
    // the index answers whenever it may: it is ready and whole, and fit for each word
    ensures indexed <==> db.st.phase == Ready && !db.st.overflowed && Terms(f) != [] && forall i :: 0 <= i < |Terms(f)| ==> Usable(Terms(f)[i])
  {
    InvTables(db);
    var terms := Terms(f);
    hide Inv, TablesOk, Terms, Usable, Standard;
    indexed := terms != [] && CanUse(terms) && db.st.phase == Ready && !db.st.overflowed;
    if !indexed {
      out := Standard(db.t, f);
    } else {
      ReadyIsExact(db);
      AcceptedIsMatching(db, f);
      out := ListIndexed(db, f, terms);
      AnswerIsStandard(db, f);
    }
  }

  lemma AnswerIsStandard(db: Db, f: Filter)
    requires TablesOk(db.t) && Terms(f) != []
    requires Accepted(db, Candidates(db, Terms(f)[0], f.before, f.beforeId), f, Terms(f)[1..]) == Matching(db.t, f)
    ensures Take(Answer(db, f, Terms(f)), f.limit) == Standard(db.t, f)
  {
    hide TablesOk, Terms, Matching, Candidates, Accepted;
  }

  lemma SameMatches(t: Store, f: Filter, g: Filter)
    requires Terms(f) == Terms(g)
    requires forall r :: r in t.sessions ==> (Passes(t, r, f) <==> Passes(t, r, g))
    ensures Matching(t, f) == Matching(t, g)
  {
    hide Passes, EveryTermHits, Terms;
  }

  /** A before_id without a before, which the API refuses, is where the two
      queries part: the index then admits no session at all, while the standard
      scan ignores the cursor. */
  lemma CursorWithoutTime(db: Db, f: Filter)
    requires TablesOk(db.t) && Terms(f) != [] && f.beforeId != "" && f.before == 0
    ensures Answer(db, f, Terms(f)) == []
    ensures Take(Answer(db, f, Terms(f)), f.limit) == Standard(db.t, f) <==>
              f.limit == 0 || Matching(db.t, f.(beforeId := "")) == {}
  {
    hide TablesOk, Terms, Candidates, Matching, Accepts, InOrder;
    var rows := Candidates(db, Terms(f)[0], f.before, f.beforeId);
    NothingBeforeTime(db, f, Terms(f)[0]);
    WithoutCursor(db.t, f);
    assert Accepted(db, rows, f, Terms(f)[1..]) == {};
  }

  lemma WithoutCursor(t: Store, f: Filter)
    requires f.before == 0
    ensures Matching(t, f) == Matching(t, f.(beforeId := ""))
  {
    var g := f.(beforeId := "");
    assert Terms(f) == Terms(g);
    assert forall r :: r in t.sessions ==> (Passes(t, r, f) <==> Passes(t, r, g));
    hide Terms, Passes, Matching;
    SameMatches(t, f, g);
  }

  lemma NothingBeforeTime(db: Db, f: Filter, term: string)
    requires TablesOk(db.t) && f.beforeId != "" && f.before == 0
    ensures Candidates(db, term, f.before, f.beforeId) == {}
  {
    hide DocHit;
    forall r | r in db.t.sessions ensures !Admits(db.t.sessions[r], 0, f.beforeId) {
      assert db.t.sessions[r].startedAt > 0;
    }
  }

  // ---- Paging ----

  /** The filter for the page after row r. */
  function NextPage(t: Store, f: Filter, r: int): Filter
    requires r in t.sessions
  {
    f.(before := t.sessions[r].startedAt, beforeId := t.sessions[r].id)
  }

  /** Page after page, each asked for with the last row's start time and id. */
  function Pages(t: Store, f: Filter): (pages: seq<seq<int>>)
    requires TablesOk(t) && f.limit > 0
    decreases |Listing(t, f)|
  {
    hide TablesOk, Listing, Standard;
    var page := Standard(t, f);
    if page == [] then []
    else
      PageStep(t, f);
      [page] + Pages(t, NextPage(t, f, page[|page| - 1]))
  }

  function Flat(pages: seq<seq<int>>): seq<int> {
    if pages == [] then [] else pages[0] + Flat(pages[1..])
  }

  lemma PassesNext(t: Store, f: Filter, r: int, x: int)
    requires r in t.sessions && x in t.sessions && t.sessions[r].id != "" && t.sessions[r].startedAt > 0
    requires Passes(t, r, f)
    ensures Passes(t, x, NextPage(t, f, r)) <==> Passes(t, x, f) && Newer(t.sessions[r], t.sessions[x])
  {
    var last := t.sessions[r];
    var kept := f.(before := 0, beforeId := "");
    assert Passes(t, x, f) <==> Passes(t, x, kept) && CursorPasses(t.sessions[x], f.before, f.beforeId);
    assert Passes(t, x, NextPage(t, f, r)) <==> Passes(t, x, kept) && CursorPasses(t.sessions[x], last.startedAt, last.id);
    assert CursorPasses(last, f.before, f.beforeId);
    hide Passes;
    if Newer(last, t.sessions[x]) && f.before != 0 { AdmitsOlder(last, t.sessions[x], f.before, f.beforeId); }
  }

  /** The part of Passes that reads the cursor. */
  predicate CursorPasses(s: Session, before: int, beforeId: string) {
    if before != 0 && beforeId != "" then CursorAdmits(s, before, beforeId)
    else before != 0 ==> s.startedAt < before
  }

  lemma MatchesNext(t: Store, f: Filter, r: int, x: int)
    requires TablesOk(t) && r in Matching(t, f) && x in t.sessions
    ensures x in Matching(t, NextPage(t, f, r)) <==> x in Matching(t, f) && Newer(t.sessions[r], t.sessions[x])
  {
    assert t.sessions[r].id != "" && t.sessions[r].startedAt > 0;
    SameTerms(f, NextPage(t, f, r));
    hide TablesOk, EveryTermHits, Terms, Passes, Newer;
    PassesNext(t, f, r, x);
  }

  lemma NextMatching(t: Store, f: Filter, r: int)
    requires TablesOk(t) && r in Matching(t, f)
    ensures Matching(t, NextPage(t, f, r)) == set x | x in Matching(t, f) && Newer(t.sessions[r], t.sessions[x])
  {
    hide TablesOk, Matching, Newer;
    var rows := set x | x in Matching(t, f) && Newer(t.sessions[r], t.sessions[x]);
    forall x ensures x in Matching(t, NextPage(t, f, r)) <==> x in rows {
      if x in t.sessions { MatchesNext(t, f, r, x); }
    }
  }

  lemma SameTerms(f: Filter, g: Filter)
    requires f.action == g.action
    ensures Terms(f) == Terms(g)
  {}

  /** The cursor of the i-th row leaves the rows after it. */
  lemma NextListing(t: Store, f: Filter, i: nat)
    requires TablesOk(t) && 0 < i <= |Listing(t, f)|
    ensures Listing(t, f)[i - 1] in t.sessions
    ensures Listing(t, NextPage(t, f, Listing(t, f)[i - 1])) == Listing(t, f)[i..]
  {
    var rows := Matching(t, f);
    hide TablesOk, Matching, Newer, InOrder;
    var r := Listing(t, f)[i - 1];
    assert r in NewestFirst(t, rows);
    AfterRow(t, rows, i);
    NextMatching(t, f, r);
  }

  lemma PageStep(t: Store, f: Filter)
    requires TablesOk(t) && Standard(t, f) != []
    ensures var page := Standard(t, f);
            && page[|page| - 1] in t.sessions
            && |page| <= |Listing(t, f)| && page == Listing(t, f)[..|page|]
            && (|page| == f.limit || |page| == |Listing(t, f)|)
            && Listing(t, NextPage(t, f, page[|page| - 1])) == Listing(t, f)[|page|..]
  {
    hide TablesOk, Listing;
    NextListing(t, f, |Standard(t, f)|);
  }

  /** Following the last row's cursor lists every matching session exactly once,
      newest first, with no gap or repeat among equal start times. */
  lemma {:induction false} PagesListAll(t: Store, f: Filter)
    requires TablesOk(t) && f.limit > 0
    ensures Flat(Pages(t, f)) == Listing(t, f)
    ensures PageSizesOk(Pages(t, f), f.limit)
    decreases |Listing(t, f)|
  {
    hide TablesOk, Listing;
    var all, page := Listing(t, f), Standard(t, f);
    if page != [] {
      PageStep(t, f);
      PagesListAll(t, NextPage(t, f, page[|page| - 1]));
      assert all == all[..|page|] + all[|page|..];
    }
  }

  /** No page is empty, none is longer than the limit, and only the last is shorter. */
  predicate PageSizesOk(pages: seq<seq<int>>, limit: nat) {
    && (forall i :: 0 <= i < |pages| ==> 0 < |pages[i]| <= limit)
    && (forall i :: 0 <= i < |pages| - 1 ==> |pages[i]| == limit)
  }
}
