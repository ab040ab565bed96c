/** From the tab to the player: the batches a tab sends, saved by any run of saves
    with their stylesheets taken out, are paged to the dashboard, which puts the
    stylesheets back. */
module Playback {
  import opened Rows
  import opened Stylesheets
  import opened Tracker
  import opened Recording
  import opened StylesheetReplay
  import StylesheetRuns

  type State = StylesheetRuns.State

  // ---- Events as documents ----

  function EventDoc(e: Event): Json {
    Obj([Field("type", Num(e.kind)), Field("timestamp", Num(e.timestamp)), Field("data", e.body)])
  }

  function DocOf(events: seq<Event>): (doc: Json)
    ensures doc.Arr? && |doc.items| == |events| && forall i :: 0 <= i < |events| ==> doc.items[i] == EventDoc(events[i])
  {
    Arr(seq(|events|, i requires 0 <= i < |events| => EventDoc(events[i])))
  }

  predicate IsEvent(j: Json) {
    && j.Obj? && |j.fields| == 3
    && j.fields[0].key == "type" && j.fields[0].value.Num?
    && j.fields[1].key == "timestamp" && j.fields[1].value.Num?
    && j.fields[2].key == "data"
  }

  function EventOf(j: Json): (e: Event)
    requires IsEvent(j)
    ensures EventDoc(e) == j
  {
    Event(j.fields[0].value.n, j.fields[1].value.n, j.fields[2].value)
  }

  predicate IsEvents(doc: Json) {
    doc.Arr? && forall i :: 0 <= i < |doc.items| ==> IsEvent(doc.items[i])
  }

  function EventsOf(doc: Json): (events: seq<Event>)
    requires IsEvents(doc)
    ensures DocOf(events) == doc
  {
    seq(|doc.items|, i requires 0 <= i < |doc.items| => EventOf(doc.items[i]))
  }

  lemma DecodeEncode(events: seq<Event>)
    ensures IsEvents(DocOf(events)) && EventsOf(DocOf(events)) == events
  {
    forall i | 0 <= i < |events| ensures IsEvent(EventDoc(events[i])) && EventOf(EventDoc(events[i])) == events[i] {}
  }

  /** The events with the stylesheets in their data rewritten. */
  function Rewritten(events: seq<Event>, f: string -> string): (out: seq<Event>)
    ensures |out| == |events|
  {
    seq(|events|, i requires 0 <= i < |events| => events[i].(body := Walk(events[i].body, f)))
  }

  lemma WalkEvent(e: Event, f: string -> string)
    ensures Walk(EventDoc(e), f) == EventDoc(e.(body := Walk(e.body, f)))
  {
    var fields := EventDoc(e).fields;
    var after := EventDoc(e.(body := Walk(e.body, f))).fields;
    forall i | 0 <= i < 3 ensures WalkField(fields[i], f) == after[i] {}
    assert Walk(EventDoc(e), f).fields == after;
  }

  lemma WalkEvents(events: seq<Event>, f: string -> string)
    ensures Walk(DocOf(events), f) == DocOf(Rewritten(events, f))
  {
    hide EventDoc;
    forall i | 0 <= i < |events| ensures Walk(DocOf(events), f).items[i] == EventDoc(Rewritten(events, f)[i]) { WalkEvent(events[i], f); }
    assert Walk(DocOf(events), f).items == DocOf(Rewritten(events, f)).items;
  }

  lemma EventTexts(e: Event, t: string)
    ensures HasText(EventDoc(e), t) <==> HasText(e.body, t)
  {
    var fields := EventDoc(e).fields;
    assert forall i :: 0 <= i < 2 ==> !FieldHasText(fields[i], t);
    assert FieldHasText(fields[2], t) <==> HasText(e.body, t);
  }

  /** The dashboard finds each sheet an event refers to. */
  ghost predicate Findable(e: Event, known: map<string, string>) {
    ClientResolves(e.body, known)
  }

  lemma FindableAll(events: seq<Event>, known: map<string, string>)
    ensures ClientResolves(DocOf(events), known) <==> forall e :: e in events ==> Findable(e, known)
  {
    hide EventDoc;
    if ClientResolves(DocOf(events), known) {
      forall e, t | e in events && HasText(e.body, t) && RefShaped(t) ensures RefHash(t) in known {
        var i :| 0 <= i < |events| && events[i] == e;
        EventTexts(e, t);
        assert HasText(DocOf(events), t);
      }
    }
    if forall e :: e in events ==> Findable(e, known) {
      forall t | HasText(DocOf(events), t) && RefShaped(t) ensures RefHash(t) in known {
        var i :| 0 <= i < |events| && HasText(DocOf(events).items[i], t);
        EventTexts(events[i], t);
        assert events[i] in events;
      }
    }
  }

  /** Replacing stylesheets does not change which events there are. */
  lemma SameShape(body: Json, events: seq<Event>, f: string -> string)
    requires Walk(body, f) == Walk(DocOf(events), f)
    ensures IsEvents(body) && |body.items| == |events|
  {
    WalkEvents(events, f);
    hide EventDoc, Rewritten;
    forall i | 0 <= i < |body.items| ensures IsEvent(body.items[i]) {
      assert Walk(body.items[i], f) == EventDoc(Rewritten(events, f)[i]);
      EventShape(body.items[i], Rewritten(events, f)[i], f);
    }
  }

  lemma EventShape(j: Json, e: Event, f: string -> string)
    requires Walk(j, f) == EventDoc(e)
    ensures IsEvent(j)
  {
    assert |j.fields| == 3;
    forall i | 0 <= i < 3 ensures j.fields[i].key == EventDoc(e).fields[i].key && Walk(j.fields[i].value, f) == EventDoc(e).fields[i].value {
      assert WalkField(j.fields[i], f) == EventDoc(e).fields[i];
    }
  }

  // ---- What the server holds ----

  /** The chunk's document is that of a batch the tab sent under this key. */
  ghost predicate FromBatch(k: ChunkKey, doc: Json, sent: seq<Batch>) {
    exists b :: b in sent && KeyOfBatch(b) == k && doc == DocOf(b.events)
  }

  ghost predicate SavedFrom(st: State, sent: seq<Batch>) {
    && (forall id :: id in st.saves ==> FromBatch(st.saves[id].key, st.saves[id].doc, sent))
    && (forall k :: k in st.chunks ==> FromBatch(k, st.chunks[k].doc, sent))
  }

  /** Saves are of batches the tab sent. */
  ghost predicate SavesOf(steps: seq<StylesheetRuns.Step>, sent: seq<Batch>) {
    forall i :: 0 <= i < |steps| && steps[i].Begin? ==> FromBatch(steps[i].key, steps[i].doc, sent)
  }

  lemma StepSaved(st: State, step: StylesheetRuns.Step, hash: Hash, sent: seq<Batch>)
    requires SavedFrom(st, sent) && (step.Begin? ==> FromBatch(step.key, step.doc, sent))
    ensures SavedFrom(StylesheetRuns.Apply(st, step, hash), sent)
  {
    hide FromBatch;
  }

  lemma {:induction false} RunSaved(st: State, steps: seq<StylesheetRuns.Step>, hash: Hash, sent: seq<Batch>)
    requires SavedFrom(st, sent) && SavesOf(steps, sent)
    ensures SavedFrom(StylesheetRuns.After(st, steps, hash), sent)
    decreases |steps|
  {
    hide SavedFrom, FromBatch, StylesheetRuns.Apply;
    if steps != [] {
      StepSaved(st, steps[0], hash, sent);
      RunSaved(StylesheetRuns.Apply(st, steps[0], hash), steps[1..], hash, sent);
    }
  }

  /** Of the batches sent in a session, those stored, in the order they were sent. */
  function Stored(sent: seq<Batch>, keys: set<ChunkKey>, session: string): (kept: seq<Batch>)
    ensures forall b :: b in kept <==> b in sent && KeyOfBatch(b) in keys && b.session == session
    decreases |sent|
  {
    if sent == [] then []
    else
      var before, last := Stored(sent[..|sent| - 1], keys, session), sent[|sent| - 1];
      assert sent == sent[..|sent| - 1] + [last];
      if KeyOfBatch(last) in keys && last.session == session then before + [last] else before
  }

  lemma {:induction false} StoredNumbered(sent: seq<Batch>, keys: set<ChunkKey>, session: string)
    requires Numbered(sent)
    ensures Numbered(Stored(sent, keys, session))
    decreases |sent|
  {
    if sent != [] {
      var before, last := sent[..|sent| - 1], sent[|sent| - 1];
      StoredNumbered(before, keys, session);
      forall b | b in Stored(before, keys, session) ensures b.session == last.session ==> b.number < last.number {
        var i :| 0 <= i < |before| && before[i] == b;
        assert sent[i] == b;
      }
    }
  }

  /** The stored chunks as lists of events, and as they were sent. */
  ghost predicate Decoded(st: State) {
    forall k :: k in st.chunks ==>
      && IsEvents(st.chunks[k].body) && IsEvents(st.chunks[k].doc) && |st.chunks[k].body.items| == |st.chunks[k].doc.items|
  }

  function Bodies(st: State): Chunks
    requires Decoded(st)
  {
    map k | k in st.chunks :: EventsOf(st.chunks[k].body)
  }

  function Docs(st: State): Chunks
    requires Decoded(st)
  {
    map k | k in st.chunks :: EventsOf(st.chunks[k].doc)
  }

  lemma AllDecoded(st: State, hash: Hash, seen: iset<string>, sent: seq<Batch>)
    requires StylesheetRuns.Ok(st, hash, seen) && SavedFrom(st, sent)
    ensures Decoded(st)
  {
    forall k | k in st.chunks
      ensures IsEvents(st.chunks[k].body) && IsEvents(st.chunks[k].doc) && |st.chunks[k].body.items| == |st.chunks[k].doc.items|
    {
      var b :| b in sent && KeyOfBatch(b) == k && st.chunks[k].doc == DocOf(b.events);
      assert StylesheetRuns.ChunkGood(st, k, hash, seen);
      DecodeEncode(b.events);
      SameShape(st.chunks[k].body, b.events, StylesheetRuns.Back(hash, seen));
    }
  }

  lemma DocsAreBatches(st: State, sent: seq<Batch>)
    requires Decoded(st) && SavedFrom(st, sent) && Numbered(sent)
    ensures forall b :: b in sent && KeyOfBatch(b) in st.chunks ==> Docs(st)[KeyOfBatch(b)] == b.events
    ensures forall k :: k in st.chunks ==> k.seqNo >= 0 && exists b :: b in sent && KeyOfBatch(b) == k
  {
    forall k | k in st.chunks ensures exists b :: b in sent && KeyOfBatch(b) == k && Docs(st)[k] == b.events {
      assert FromBatch(k, st.chunks[k].doc, sent);
      var b :| b in sent && KeyOfBatch(b) == k && st.chunks[k].doc == DocOf(b.events);
      DecodeEncode(b.events);
    }
    forall a | a in sent && KeyOfBatch(a) in st.chunks ensures Docs(st)[KeyOfBatch(a)] == a.events {
      var b :| b in sent && KeyOfBatch(b) == KeyOfBatch(a) && Docs(st)[KeyOfBatch(a)] == b.events;
      OneBatchPerKey(sent, a, b);
    }
  }

  lemma StoredNumbers(st: State, sent: seq<Batch>, session: string, n: int)
    requires Decoded(st) && SavedFrom(st, sent) && Numbered(sent)
    ensures n in NumbersOf(Stored(sent, st.chunks.Keys, session)) <==> n in SeqsOf(Docs(st), session)
  {
    hide Decoded, SavedFrom, Numbered, SeqsOf;
    var kept := Stored(sent, st.chunks.Keys, session);
    DocKeys(st, sent, session, n);
    hide Stored;
    var numbers := NumbersOf(kept);
    if n in numbers {
      var i :| 0 <= i < |numbers| && numbers[i] == n;
      var b := kept[i];
      assert b in kept;
      assert KeyOfBatch(b) == ChunkKey(session, n);
    }
    if ChunkKey(session, n) in st.chunks {
      var b :| b in sent && KeyOfBatch(b) == ChunkKey(session, n);
      assert b in kept;
      var i :| 0 <= i < |kept| && kept[i] == b;
      assert numbers[i] == n;
    }
  }

  lemma DocKeys(st: State, sent: seq<Batch>, session: string, n: int)
    requires Decoded(st) && SavedFrom(st, sent) && Numbered(sent)
    ensures n in SeqsOf(Docs(st), session) <==> ChunkKey(session, n) in st.chunks
    ensures ChunkKey(session, n) in st.chunks ==> exists b :: b in sent && KeyOfBatch(b) == ChunkKey(session, n)
  {
    DocsAreBatches(st, sent);
    if ChunkKey(session, n) in st.chunks { assert ChunkKey(session, n) in Docs(st).Keys; }
  }

  /** As sent, the stored chunks play as the stored batches' events. */
  lemma DocsPlay(st: State, sent: seq<Batch>, session: string)
    requires Decoded(st) && SavedFrom(st, sent) && Numbered(sent)
    ensures Recorded(Docs(st), session) == EventsIn(Stored(sent, st.chunks.Keys, session))
  {
    var kept := Stored(sent, st.chunks.Keys, session);
    DocsAreBatches(st, sent);
    StoredNumbered(sent, st.chunks.Keys, session);
    forall n ensures n in NumbersOf(kept) <==> n in SeqsOf(Docs(st), session) { StoredNumbers(st, sent, session, n); }
    NumbersIncrease(kept, session);
    hide Stored, Decoded, SavedFrom, SeqsOf, Numbered;
    PlayedIsEvents(Docs(st), session, kept);
    SameSorted(NumbersOf(kept), Sorted(SeqsOf(Docs(st), session)));
  }

  lemma NumbersIncrease(kept: seq<Batch>, session: string)
    requires Numbered(kept) && forall b :: b in kept ==> b.session == session
    ensures Increasing(NumbersOf(kept))
  {
    forall i, j | 0 <= i < j < |kept| ensures kept[i].number < kept[j].number {
      assert kept[i] in kept && kept[j] in kept;
    }
  }

  // ---- Playing ----

  /** Recordings that agree chunk by chunk in length agree exactly when each chunk does. */
  lemma {:induction false} RewrittenPlayed(raw: Chunks, docs: Chunks, session: string, numbers: seq<int>, f: string -> string)
    requires forall n :: n in numbers ==>
               && ChunkKey(session, n) in raw && ChunkKey(session, n) in docs
               && |raw[ChunkKey(session, n)]| == |docs[ChunkKey(session, n)]|
    ensures Rewritten(Played(raw, session, numbers), f) == Played(docs, session, numbers) <==>
              forall n :: n in numbers ==> Rewritten(raw[ChunkKey(session, n)], f) == docs[ChunkKey(session, n)]
    ensures |Played(raw, session, numbers)| == |Played(docs, session, numbers)|
    decreases |numbers|
  {
    hide Rewritten;
    if numbers == [] {
      NothingRewritten(f);
    } else {
      var before, last := numbers[..|numbers| - 1], numbers[|numbers| - 1];
      assert numbers == before + [last];
      RewrittenPlayed(raw, docs, session, before, f);
      var a, b := Played(raw, session, before), raw[ChunkKey(session, last)];
      RewrittenConcat(a, b, f);
      SplitAlike(Rewritten(a, f), Rewritten(b, f), Played(docs, session, before), docs[ChunkKey(session, last)]);
    }
  }

  lemma NothingRewritten(f: string -> string)
    ensures Rewritten([], f) == []
  {}

  lemma SplitAlike<T>(a: seq<T>, b: seq<T>, c: seq<T>, d: seq<T>)
    requires |a| == |c| && |b| == |d|
    ensures a + b == c + d <==> a == c && b == d
  {
    if a + b == c + d {
      assert a == (a + b)[..|a|] && c == (c + d)[..|c|];
      assert b == (a + b)[|a|..] && d == (c + d)[|c|..];
    }
  }

  lemma RewrittenConcat(a: seq<Event>, b: seq<Event>, f: string -> string)
    ensures Rewritten(a + b, f) == Rewritten(a, f) + Rewritten(b, f)
  {
    hide Walk;
  }

  lemma {:induction false} PlayedHas(chunks: Chunks, session: string, numbers: seq<int>, e: Event)
    requires Readable(chunks, session, numbers)
    ensures e in Played(chunks, session, numbers) <==> exists n :: n in numbers && e in chunks[ChunkKey(session, n)]
    decreases |numbers|
  {
    if numbers != [] {
      var before, n := numbers[..|numbers| - 1], numbers[|numbers| - 1];
      assert numbers == before + [n];
      PlayedHas(chunks, session, before, e);
    }
  }

  ghost predicate AllFindable(chunks: Chunks, session: string, known: map<string, string>) {
    forall k :: k in chunks && k.session == session ==> ClientResolves(DocOf(chunks[k]), known)
  }

  /** All of a session can be shown exactly when each event of it can. */
  lemma FindableRecorded(chunks: Chunks, session: string, known: map<string, string>)
    ensures AllFindable(chunks, session, known) <==> forall e :: e in Recorded(chunks, session) ==> Findable(e, known)
  {
    var all := Sorted(SeqsOf(chunks, session));
    AllReadable(chunks, session);
    hide Findable, ClientResolves, Played;
    if AllFindable(chunks, session, known) {
      forall e | e in Recorded(chunks, session) ensures Findable(e, known) {
        PlayedHas(chunks, session, all, e);
        var n :| n in all && e in chunks[ChunkKey(session, n)];
        FindableAll(chunks[ChunkKey(session, n)], known);
      }
    }
    if forall e :: e in Recorded(chunks, session) ==> Findable(e, known) {
      forall k | k in chunks && k.session == session ensures ClientResolves(DocOf(chunks[k]), known) {
        assert k.seqNo in all && k == ChunkKey(session, k.seqNo);
        forall e | e in chunks[k] ensures Findable(e, known) { PlayedHas(chunks, session, all, e); }
        FindableAll(chunks[k], known);
      }
    }
  }

  /** What a page shows is part of the recording. */
  lemma PageIsRecorded(chunks: Chunks, session: string, after: int, events: seq<Event>, n: nat, e: Event)
    requires Following(chunks, session, after, events, n) && e in events
    ensures e in Recorded(chunks, session)
  {
    var all := Sorted(SeqsOf(chunks, session));
    PlayedHas(chunks, session, all[..n], e);
    PlayedHas(chunks, session, all, e);
  }

  /** loadPage, over and over: page by page the sheets are loaded and put back. */
  method Play(player: Player, chunks: Chunks, assets: map<string, string>, session: string, limit: nat) returns (shown: Option<seq<Event>>)
    requires limit > 0 && forall k :: k in chunks ==> k.seqNo >= 0
    modifies player
    ensures shown.Some? <==> AllFindable(chunks, session, assets + old(player.cache))
    ensures shown.Some? ==> shown.value == Rewritten(Recorded(chunks, session), Substitute(assets + old(player.cache)))
  {
    hide Following, IsPage, Recorded, AllFindable, Findable, ClientResolves, Rewritten;
    ghost var known := assets + player.cache;
    FindableRecorded(chunks, session, known);
    var events: seq<Event> := [];
    ghost var raw, n := [], 0;
    Beginning(chunks, session);
    NothingRewritten(Substitute(known));
    var after, more := -1, true;
    while more
      invariant Following(chunks, session, after, raw, n)
      invariant !more ==> n == |Sorted(SeqsOf(chunks, session))|
      invariant events == Rewritten(raw, Substitute(known)) && assets + player.cache == known
      invariant forall e :: e in raw ==> Findable(e, known)
      decreases more, |Sorted(SeqsOf(chunks, session))| - n
    {
      var page := EventsPage(chunks, session, after, limit);
      n := FollowPage(chunks, session, after, raw, n, limit, page);
      raw := raw + page.events;
      StillFollowing(chunks, session, page.next, raw, n);
      FindableAll(page.events, known);
      var r := player.Show(DocOf(page.events), assets);
      if r.None? {
        ghost var e :| e in page.events && !Findable(e, known);
        PageIsRecorded(chunks, session, page.next, raw, n, e);
        return None;
      }
      ShownPage(page.events, known);
      RewrittenConcat(raw[..|raw| - |page.events|], page.events, Substitute(known));
      events := events + EventsOf(r.value);
      after, more := page.next, page.more;
    }
    Finished(chunks, session, after, raw);
    return Some(events);
  }

  lemma StillFollowing(chunks: Chunks, session: string, after: int, events: seq<Event>, n: nat)
    requires Following(chunks, session, after, events, n)
    ensures n <= |Sorted(SeqsOf(chunks, session))|
  {}

  lemma ShownPage(events: seq<Event>, known: map<string, string>)
    requires ClientResolves(DocOf(events), known)
    ensures ClientRehydrate(DocOf(events), known) == Some(DocOf(Rewritten(events, Substitute(known))))
    ensures IsEvents(DocOf(Rewritten(events, Substitute(known))))
    ensures EventsOf(DocOf(Rewritten(events, Substitute(known)))) == Rewritten(events, Substitute(known))
  {
    WalkEvents(events, Substitute(known));
    DecodeEncode(Rewritten(events, Substitute(known)));
  }

  // ---- The whole way ----

  /** Sheets a tab fetched earlier do not harm: they lie under their own hash. */
  lemma CachedOk(st: State, hash: Hash, seen: iset<string>, cache: map<string, string>)
    requires StylesheetRuns.Ok(st, hash, seen) && StylesheetRuns.AssetsOk(cache, hash, seen)
    ensures StylesheetRuns.Ok(st.(shelf := st.shelf.(assets := st.shelf.assets + cache)), hash, seen)
  {
    hide StylesheetRuns.PartOf, StylesheetRuns.SaveOk;
  }

  /** A chunk whose sheets are all found is shown as it was sent exactly when it held
      no text shaped like a reference. */
  lemma ChunkBack(st: State, hash: Hash, seen: iset<string>, cache: map<string, string>, k: ChunkKey)
    requires StylesheetRuns.Ok(st, hash, seen) && StylesheetRuns.AssetsOk(cache, hash, seen) && Decoded(st) && k in st.chunks
    requires ClientResolves(st.chunks[k].body, st.shelf.assets + cache)
    ensures Rewritten(Bodies(st)[k], Substitute(st.shelf.assets + cache)) == Docs(st)[k] <==> Plain(st.chunks[k].doc)
  {
    var known := st.shelf.assets + cache;
    CachedOk(st, hash, seen, cache);
    StylesheetRuns.ClientReadsBack(st.(shelf := st.shelf.(assets := known)), k, hash, seen);
    ShownPage(Bodies(st)[k], known);
    DecodeEncode(Docs(st)[k]);
  }

  /** No text of the document is shaped like a reference. */
  ghost predicate Plain(doc: Json) {
    forall t :: HasText(doc, t) ==> !RefShaped(t)
  }

  ghost predicate AllPlain(batches: seq<Batch>) {
    forall b :: b in batches ==> Plain(DocOf(b.events))
  }

  /** Whatever run of saves, deletions and collections the server went through, the
      player shows a session exactly when every sheet its chunks refer to is found.
      It then shows the events of the batches still stored, each once, in the order
      they were recorded and with their stylesheets as the page had them, exactly
      when no text of those was shaped like a reference in the first place. */
  method PlayTab(tab: Tab, steps: seq<StylesheetRuns.Step>, hash: Hash, ghost seen: iset<string>,
                 player: Player, session: string, limit: nat) returns (shown: Option<seq<Event>>)
    requires tab.Valid() && limit > 0
    requires HexHash(hash) && InjectiveOn(hash, seen) && StylesheetRuns.IsRun(StylesheetRuns.Empty, steps, hash, seen)
    requires SavesOf(steps, tab.sent) && StylesheetRuns.AssetsOk(player.cache, hash, seen)
    modifies player
    ensures var st := StylesheetRuns.After(StylesheetRuns.Empty, steps, hash);
            && (shown.Some? <==>
                  forall k :: k in st.chunks && k.session == session ==> ClientResolves(st.chunks[k].body, st.shelf.assets + old(player.cache)))
            && var stored := Stored(tab.sent, st.chunks.Keys, session);
              shown.Some? ==> (shown.value == EventsIn(stored) <==> AllPlain(stored))
  {
    hide StylesheetRuns.Ok, StylesheetRuns.AssetsOk, StylesheetRuns.IsRun, StylesheetRuns.After, HexHash, InjectiveOn;
    hide SavesOf, SavedFrom, Decoded, Bodies, Docs, AllFindable, Recorded, Rewritten, AllPlain, Stored, EventsIn;
    var st := StylesheetRuns.After(StylesheetRuns.Empty, steps, hash);
    StylesheetRuns.Reachable(steps, hash, seen);
    NothingSaved(tab.sent);
    RunSaved(StylesheetRuns.Empty, steps, hash, tab.sent);
    AllDecoded(st, hash, seen, tab.sent);
    BodiesFindable(st, tab.sent, session, st.shelf.assets + player.cache);
    shown := Play(player, Bodies(st), st.shelf.assets, session, limit);
    if shown.Some? {
      AllBack(st, tab.sent, hash, seen, old(player.cache), session);
      DocsPlay(st, tab.sent, session);
    }
  }

  lemma NothingSaved(sent: seq<Batch>)
    ensures SavedFrom(StylesheetRuns.Empty, sent)
  {}

  lemma BodiesFindable(st: State, sent: seq<Batch>, session: string, known: map<string, string>)
    requires Decoded(st) && SavedFrom(st, sent) && Numbered(sent)
    ensures AllFindable(Bodies(st), session, known) <==>
              forall k :: k in st.chunks && k.session == session ==> ClientResolves(st.chunks[k].body, known)
    ensures forall k :: k in Bodies(st) ==> k.seqNo >= 0
  {
    DocsAreBatches(st, sent);
    hide ClientResolves, Numbered, SavedFrom;
    forall k | k in st.chunks ensures k in Bodies(st) && DocOf(Bodies(st)[k]) == st.chunks[k].body {}
  }

  lemma AllBack(st: State, sent: seq<Batch>, hash: Hash, seen: iset<string>, cache: map<string, string>, session: string)
    requires StylesheetRuns.Ok(st, hash, seen) && StylesheetRuns.AssetsOk(cache, hash, seen) && SavedFrom(st, sent) && Numbered(sent)
    requires Decoded(st) && AllFindable(Bodies(st), session, st.shelf.assets + cache)
    ensures Rewritten(Recorded(Bodies(st), session), Substitute(st.shelf.assets + cache)) == Recorded(Docs(st), session) <==>
              AllPlain(Stored(sent, st.chunks.Keys, session))
  {
    var known := st.shelf.assets + cache;
    var numbers := Sorted(SeqsOf(Bodies(st), session));
    AllReadable(Bodies(st), session);
    hide StylesheetRuns.Ok, StylesheetRuns.AssetsOk, AllFindable, SavedFrom, Plain, AllPlain, Rewritten, Played, Decoded, Bodies, Docs, Stored;
    SameNumbers(st, session);
    forall n | n in numbers ensures
        && ChunkKey(session, n) in Bodies(st) && ChunkKey(session, n) in Docs(st)
        && (Rewritten(Bodies(st)[ChunkKey(session, n)], Substitute(known)) == Docs(st)[ChunkKey(session, n)] <==>
             Plain(st.chunks[ChunkKey(session, n)].doc))
    {
      OneBack(st, hash, seen, cache, session, ChunkKey(session, n));
    }
    RewrittenPlayed(Bodies(st), Docs(st), session, numbers, Substitute(known));
    PlainStored(st, sent, session);
    forall k | k in st.chunks && k.session == session ensures k == ChunkKey(session, k.seqNo) && k.seqNo in numbers {}
  }

  /** The stored chunks' documents are the stored batches'. */
  lemma PlainStored(st: State, sent: seq<Batch>, session: string)
    requires SavedFrom(st, sent) && Numbered(sent)
    ensures AllPlain(Stored(sent, st.chunks.Keys, session)) <==>
              forall k :: k in st.chunks && k.session == session ==> Plain(st.chunks[k].doc)
  {
    hide Plain, Numbered;
    var stored := Stored(sent, st.chunks.Keys, session);
    forall k | k in st.chunks && k.session == session ensures exists b :: b in stored && KeyOfBatch(b) == k && st.chunks[k].doc == DocOf(b.events) {
      assert FromBatch(k, st.chunks[k].doc, sent);
      var b :| b in sent && KeyOfBatch(b) == k && st.chunks[k].doc == DocOf(b.events);
      assert b in stored;
    }
    forall a | a in stored ensures st.chunks[KeyOfBatch(a)].doc == DocOf(a.events) {
      var b :| b in sent && KeyOfBatch(b) == KeyOfBatch(a) && st.chunks[KeyOfBatch(a)].doc == DocOf(b.events);
      OneBatchPerKey(sent, a, b);
    }
  }

  lemma SameNumbers(st: State, session: string)
    requires Decoded(st)
    ensures SeqsOf(Bodies(st), session) == SeqsOf(Docs(st), session) && Bodies(st).Keys == Docs(st).Keys == st.chunks.Keys
    ensures forall k :: k in st.chunks ==> |Bodies(st)[k]| == |Docs(st)[k]|
  {
    assert Bodies(st).Keys == Docs(st).Keys;
  }

  lemma OneBack(st: State, hash: Hash, seen: iset<string>, cache: map<string, string>, session: string, k: ChunkKey)
    requires StylesheetRuns.Ok(st, hash, seen) && StylesheetRuns.AssetsOk(cache, hash, seen)
    requires Decoded(st) && AllFindable(Bodies(st), session, st.shelf.assets + cache) && k in st.chunks && k.session == session
    ensures Rewritten(Bodies(st)[k], Substitute(st.shelf.assets + cache)) == Docs(st)[k] <==> Plain(st.chunks[k].doc)
  {
    hide StylesheetRuns.Ok, StylesheetRuns.AssetsOk, ClientResolves, Rewritten, HasText, RefShaped, Plain;
    assert DocOf(Bodies(st)[k]) == st.chunks[k].body;
    ChunkBack(st, hash, seen, cache, k);
  }
}
