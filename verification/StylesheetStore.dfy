/** Chunks, stylesheet assets and the links between them, over any run of saves,
    session deletions and garbage collections. */
module StylesheetStore {
  import opened Rows
  import opened Stylesheets
  import Recording

  type ChunkKey = Recording.ChunkKey
  datatype Link = Link(session: string, hash: string)

  /** Deduping keeps to the session's own links. */
  ghost predicate Linked(doc: Json, session: string, links: set<Link>, hash: Hash) {
    forall css :: HasText(doc, css) && Replaced(css) ==> Link(session, hash(css)) in links
  }

  /** Stylesheet rows: assets by hash, and which session refers to which. */
  datatype Shelf = Shelf(assets: map<string, string>, links: set<Link>)

  /** From `was` to `now`, exactly the document's large stylesheets were added. */
  ghost predicate Grown(was: Shelf, now: Shelf, hash: Hash, doc: Json, session: string) {
    && (forall h :: h in was.assets ==> h in now.assets && now.assets[h] == was.assets[h])
    && was.links <= now.links
    && (forall css :: HasText(doc, css) && Replaced(css) ==> hash(css) in now.assets && Link(session, hash(css)) in now.links)
    && (forall h :: h in now.assets && h !in was.assets ==> HasText(doc, now.assets[h]) && Replaced(now.assets[h]) && h == hash(now.assets[h]))
    && (forall l :: l in now.links && l !in was.links ==> l.session == session && l.hash in now.assets && NamesSheet(doc, l.hash, hash))
  }

  /** The hash is that of a large stylesheet of the document. */
  ghost predicate NamesSheet(doc: Json, h: string, hash: Hash) {
    exists css :: HasText(doc, css) && Replaced(css) && h == hash(css)
  }

  /** In so many words: the assets and links gained are exactly those of the document's
      stylesheets of 16,384 characters or more. */
  lemma GrownMeans(was: Shelf, now: Shelf, hash: Hash, doc: Json, session: string)
    requires Grown(was, now, hash, doc, session)
    ensures forall h :: h in now.assets <==>
              h in was.assets || exists t :: HasText(doc, t) && |t| >= 16_384 && !("@traceux-css-ref:" <= t) && h == hash(t)
    ensures forall l :: l in now.links <==>
              || l in was.links
              || (l.session == session && exists t :: HasText(doc, t) && |t| >= 16_384 && !("@traceux-css-ref:" <= t) && l.hash == hash(t))
    ensures forall h :: h in now.assets && h !in was.assets ==> HasText(doc, now.assets[h]) && h == hash(now.assets[h])
  {
    LargeIs(hash);
    hide HasText, Replaced;
    forall l | l in now.links && l !in was.links
      ensures l.session == session && exists t :: HasText(doc, t) && |t| >= 16_384 && !("@traceux-css-ref:" <= t) && l.hash == hash(t)
    {
      assert NamesSheet(doc, l.hash, hash);
    }
    forall l: Link, t | l.session == session && HasText(doc, t) && Replaced(t) && l.hash == hash(t) ensures l in now.links {
      assert l == Link(session, hash(t));
    }
  }

  lemma GrownItem(a: Shelf, b: Shelf, c: Shelf, hash: Hash, items: seq<Json>, i: nat, session: string)
    requires i < |items| && Grown(a, b, hash, Arr(items[..i]), session) && Grown(b, c, hash, items[i], session)
    ensures Grown(a, c, hash, Arr(items[..i + 1]), session)
  {
    hide HasText, Replaced;
    forall css ensures HasText(Arr(items[..i + 1]), css) <==> HasText(Arr(items[..i]), css) || HasText(items[i], css) {
      SplitItems(items, i, css);
    }
  }

  lemma SplitItems(items: seq<Json>, i: nat, css: string)
    requires i < |items|
    ensures HasText(Arr(items[..i + 1]), css) <==> HasText(Arr(items[..i]), css) || HasText(items[i], css)
  {
    var longer, shorter := items[..i + 1], items[..i];
    assert longer == shorter + [items[i]];
    if HasText(Arr(shorter), css) {
      var j :| 0 <= j < |shorter| && HasText(shorter[j], css);
      assert longer[j] == shorter[j];
    }
    if HasText(items[i], css) { assert longer[i] == items[i]; }
  }

  lemma GrownField(a: Shelf, b: Shelf, c: Shelf, hash: Hash, fields: seq<Field>, i: nat, session: string)
    requires i < |fields| && Grown(a, b, hash, Obj(fields[..i]), session) && Grown(b, c, hash, Obj([fields[i]]), session)
    ensures Grown(a, c, hash, Obj(fields[..i + 1]), session)
  {
    hide HasText, Replaced;
    forall css ensures HasText(Obj(fields[..i + 1]), css) <==> HasText(Obj(fields[..i]), css) || HasText(Obj([fields[i]]), css) {
      SplitFields(fields, i, css);
    }
  }

  lemma SplitFields(fields: seq<Field>, i: nat, css: string)
    requires i < |fields|
    ensures HasText(Obj(fields[..i + 1]), css) <==> HasText(Obj(fields[..i]), css) || HasText(Obj([fields[i]]), css)
  {
    var longer, shorter := fields[..i + 1], fields[..i];
    assert longer == shorter + [fields[i]];
    assert [fields[i]][0] == fields[i];
    if HasText(Obj(shorter), css) {
      var j :| 0 <= j < |shorter| && FieldHasText(shorter[j], css);
      assert longer[j] == shorter[j];
    }
    if FieldHasText(fields[i], css) { assert longer[i] == fields[i]; }
  }

  lemma SameTexts(a: Shelf, b: Shelf, hash: Hash, doc: Json, other: Json, session: string)
    requires Grown(a, b, hash, doc, session)
    requires forall css :: HasText(doc, css) <==> HasText(other, css)
    ensures Grown(a, b, hash, other, session)
  {
    hide HasText, Replaced;
  }

  lemma NoTexts(a: Shelf, hash: Hash, doc: Json, session: string)
    requires forall css :: !HasText(doc, css)
    ensures Grown(a, a, hash, doc, session)
  {}

  ghost function Large(doc: Json): iset<string> {
    iset css | HasText(doc, css) && Replaced(css)
  }

  /** Every chunk is the deduped form of what was saved, its stylesheets linked. */
  ghost predicate ChunksOk(chunks: map<ChunkKey, Json>, saved: map<ChunkKey, Json>, sessions: set<string>, links: set<Link>, hash: Hash) {
    && chunks.Keys == saved.Keys
    && forall k :: k in chunks ==> k.session in sessions && chunks[k] == Dedupe(saved[k], hash) && Linked(saved[k], k.session, links, hash)
  }

  /** Links name live sessions and stored assets, each under its own hash. */
  ghost predicate ShelfOk(shelf: Shelf, sessions: set<string>, hash: Hash, seen: iset<string>) {
    && (forall l :: l in shelf.links ==> l.session in sessions && l.hash in shelf.assets)
    && forall h :: h in shelf.assets ==> h == hash(shelf.assets[h]) && shelf.assets[h] in seen && Replaced(shelf.assets[h])
  }

  ghost predicate SeenOk(saved: map<ChunkKey, Json>, seen: iset<string>) {
    forall k :: k in saved ==> Large(saved[k]) <= seen
  }

  lemma SavedChunks(chunks: map<ChunkKey, Json>, saved: map<ChunkKey, Json>, sessions: set<string>, was: Shelf, now: Shelf, hash: Hash, k: ChunkKey, doc: Json)
    requires ChunksOk(chunks, saved, sessions, was.links, hash) && Grown(was, now, hash, doc, k.session)
    ensures ChunksOk(chunks[k := Dedupe(doc, hash)], saved[k := doc], sessions + {k.session}, now.links, hash)
  {
    hide Dedupe, Linked;
    GrownLinks(was, now, hash, doc, k.session);
    forall j | j in chunks ensures Linked(saved[j], j.session, now.links, hash) {
      LinkedMore(saved[j], j.session, was.links, now.links, hash);
    }
  }

  lemma SavedShelf(sessions: set<string>, was: Shelf, now: Shelf, hash: Hash, seen: iset<string>, doc: Json, session: string)
    requires ShelfOk(was, sessions, hash, seen) && Grown(was, now, hash, doc, session)
    ensures ShelfOk(now, sessions + {session}, hash, seen + Large(doc))
  {
    hide HasText, Replaced;
  }

  lemma DeletedChunks(chunks: map<ChunkKey, Json>, saved: map<ChunkKey, Json>, sessions: set<string>, links: set<Link>, hash: Hash, session: string)
    requires ChunksOk(chunks, saved, sessions, links, hash)
    ensures ChunksOk(map k | k in chunks && k.session != session :: chunks[k], map k | k in saved && k.session != session :: saved[k],
                     sessions - {session}, (set l | l in links && l.session != session), hash)
  {
    hide Dedupe, Linked;
    var kept := set l | l in links && l.session != session;
    forall k | k in chunks && k.session != session ensures Linked(saved[k], k.session, kept, hash) {
      LinkedKept(saved[k], k.session, links, kept, hash);
    }
  }

  class Store {
    const hash: Hash
    var sessions: set<string>
    var chunks: map<ChunkKey, Json>
    var assets: map<string, string>
    var links: set<Link>
    // what was last saved under each chunk, and every stylesheet ever stored
    ghost var saved: map<ChunkKey, Json>
    ghost var seen: iset<string>

    /** Every chunk is the deduped form of what was saved, and each stylesheet it
        refers to is linked to its session and held, under its own hash. */
    ghost predicate Valid()
      reads this
    {
      && HexHash(hash) && InjectiveOn(hash, seen)
      && ChunksOk(chunks, saved, sessions, links, hash)
      && ShelfOk(Rows(), sessions, hash, seen)
      && SeenOk(saved, seen)
    }

    constructor (hash: Hash)
      requires HexHash(hash)
      ensures Valid() && this.hash == hash && chunks == map[] && assets == map[]
    {
      this.hash := hash;
      sessions, chunks, assets, links, saved, seen := {}, map[], map[], {}, map[], iset{};
    }

    /** putCSSAsset: both writes are idempotent. */
    method PutAsset(session: string, css: string) returns (h: string)
      requires session in sessions && Replaced(css)
      modifies this`assets, this`links
      ensures h == hash(css)
      ensures assets == if h in old(assets) then old(assets) else old(assets)[h := css]
      ensures links == old(links) + {Link(session, h)}
    {
      h := hash(css);
      if h !in assets {
        assets := assets[h := css];
      }
      links := links + {Link(session, h)};
    }

    ghost function Rows(): Shelf
      reads this
    {
      Shelf(assets, links)
    }

    /** walkCSSText with the deduping function, storing as it goes. */
    method DedupeWalk(session: string, doc: Json) returns (out: Json)
      requires session in sessions
      modifies this`assets, this`links
      ensures out == Dedupe(doc, hash) && Grown(old(Rows()), Rows(), hash, doc, session)
      decreases doc, 1
    {
      match doc
      case Arr(items) => out := DedupeItems(session, items, doc);
      case Obj(fields) => out := DedupeFields(session, fields, doc);
      case _ =>
        NoTexts(Rows(), hash, doc, session);
        out := doc;
    }

    method DedupeItems(session: string, items: seq<Json>, ghost doc: Json) returns (out: Json)
      requires session in sessions && doc == Arr(items)
      modifies this`assets, this`links
      ensures out == Dedupe(doc, hash) && Grown(old(Rows()), Rows(), hash, doc, session)
      decreases doc, 0
    {
      hide Grown;
      var walked := items;
      var i := 0;
      assert Grown(Rows(), Rows(), hash, Arr(items[..0]), session) by { NoTexts(Rows(), hash, Arr(items[..0]), session); }
      while i < |items|
        invariant 0 <= i <= |items| == |walked|
        invariant forall j :: 0 <= j < i ==> walked[j] == Dedupe(items[j], hash)
        invariant forall j :: i <= j < |items| ==> walked[j] == items[j]
        invariant Grown(old(Rows()), Rows(), hash, Arr(items[..i]), session)
      {
        ghost var mid := Rows();
        var next := DedupeWalk(session, walked[i]);
        GrownItem(old(Rows()), mid, Rows(), hash, items, i, session);
        walked := walked[i := next];
        i := i + 1;
      }
      assert items[..i] == items;
      out := Arr(walked);
      assert walked == Dedupe(doc, hash).items;
    }
  
    method DedupeFields(session: string, fields: seq<Field>, ghost doc: Json) returns (out: Json)
      requires session in sessions && doc == Obj(fields)
      modifies this`assets, this`links
      ensures out == Dedupe(doc, hash) && Grown(old(Rows()), Rows(), hash, doc, session)
      decreases doc, 0
    {
      hide Grown;
      var walked := fields;
      var i := 0;
      assert Grown(Rows(), Rows(), hash, Obj(fields[..0]), session) by { NoTexts(Rows(), hash, Obj(fields[..0]), session); }
      while i < |fields|
        invariant 0 <= i <= |fields| == |walked|
        invariant forall j :: 0 <= j < i ==> walked[j] == WalkField(fields[j], Shrink(hash))
        invariant forall j :: i <= j < |fields| ==> walked[j] == fields[j]
        invariant Grown(old(Rows()), Rows(), hash, Obj(fields[..i]), session)
      {
        ghost var mid := Rows();
        var next := DedupeField(session, walked[i]);
        GrownField(old(Rows()), mid, Rows(), hash, fields, i, session);
        walked := walked[i := next];
        i := i + 1;
      }
      assert fields[..i] == fields;
      out := Obj(walked);
      assert walked == Dedupe(doc, hash).fields;
    }

    method DedupeField(session: string, field: Field) returns (out: Field)
      requires session in sessions
      modifies this`assets, this`links
      ensures out == WalkField(field, Shrink(hash)) && Grown(old(Rows()), Rows(), hash, Obj([field]), session)
      decreases field, 2
    {
      if IsText(field) {
        var css := field.value.s;
        OnlyText(field);
        if Replaced(css) {
          var h := PutAsset(session, css);
          out := Field(field.key, Str(REF_PREFIX + h));
        } else {
          out := field;
        }
      } else {
        ghost var was := Rows();
        var value := DedupeWalk(session, field.value);
        ValueTexts(field);
        SameTexts(was, Rows(), hash, field.value, Obj([field]), session);
        out := Field(field.key, value);
      }
    }

    /** SaveEvents: dedupe, then upsert the chunk under its number. */
    method SaveEvents(k: ChunkKey, doc: Json)
      requires Valid() && InjectiveOn(hash, seen + Large(doc))
      modifies this
      ensures Valid() && saved == old(saved)[k := doc] && chunks == old(chunks)[k := Dedupe(doc, hash)]
      ensures sessions == old(sessions) + {k.session}
      ensures Grown(old(Rows()), Rows(), hash, doc, k.session)
    {
      hide HexHash, InjectiveOn, ChunksOk, ShelfOk, Grown, Large;
      ghost var was, olds := Rows(), sessions;
      sessions := sessions + {k.session};
      var out := DedupeWalk(k.session, doc);
      SavedChunks(chunks, saved, olds, was, Rows(), hash, k, doc);
      SavedShelf(olds, was, Rows(), hash, seen, doc, k.session);
      chunks := chunks[k := out];
      saved := saved[k := doc];
      seen := seen + Large(doc);
    }

    /** Chunks and links cascade away with their session. */
    method DeleteSession(session: string)
      requires Valid()
      modifies this
      ensures Valid() && sessions == old(sessions) - {session} && assets == old(assets)
      ensures saved == map k | k in old(saved) && k.session != session :: old(saved)[k]
    {
      hide HexHash, InjectiveOn, ChunksOk, Large;
      DeletedChunks(chunks, saved, sessions, links, hash, session);
      sessions := sessions - {session};
      chunks := map k | k in chunks && k.session != session :: chunks[k];
      saved := map k | k in saved && k.session != session :: saved[k];
      links := set l | l in links && l.session != session;
    }

    /** Only large stylesheets are ever stored, each under its own hash. */
    lemma StoredAreLarge()
      requires Valid()
      ensures forall h :: h in assets ==> h == hash(assets[h]) && |assets[h]| >= 16_384 && !("@traceux-css-ref:" <= assets[h])
      ensures forall l :: l in links ==> l.hash in assets && l.session in sessions
    {
      LargeIs(hash);
    }

    /** GCCSSAssets drops what no session refers to any more, and only that. */
    method CollectGarbage() returns (dropped: nat)
      requires Valid()
      modifies this`assets
      ensures Valid()
      ensures assets.Keys == set l | l in links :: l.hash
      ensures forall h :: h in assets ==> h in old(assets) && assets[h] == old(assets)[h]
      ensures dropped == |old(assets)| - |assets|
    {
      hide HexHash, InjectiveOn, ChunksOk, SeenOk, Replaced;
      var referenced := set l | l in links :: l.hash;
      var kept := map h | h in assets && h in referenced :: assets[h];
      assert kept.Keys <= assets.Keys;
      assert assets.Keys == kept.Keys + (assets.Keys - kept.Keys);
      dropped := |assets| - |kept|;
      assets := kept;
    }

    /** Whatever was saved last is held in full. */
    lemma HoldsSaved(k: ChunkKey)
      requires Valid() && k in saved
      ensures Holds(assets, saved[k], hash) && AllLarge(assets) && HexKeys(assets)
    {
      forall css | HasText(saved[k], css) && Replaced(css) ensures hash(css) in assets && assets[hash(css)] == css {
        assert Linked(saved[k], k.session, links, hash) && css in Large(saved[k]);
        assert Link(k.session, hash(css)) in links;
      }
    }

    /** In every reachable state each chunk of a live session reads back, on the
        server and on the dashboard, as the document last saved under its number,
        exactly when that document held no text shaped like a reference. */
    lemma ReadsBack(k: ChunkKey)
      requires Valid() && k in chunks
      ensures Rehydrate(chunks[k], assets) == Some(saved[k]) <==> forall t :: HasText(saved[k], t) ==> !IsRef(t)
      ensures ClientRehydrate(chunks[k], assets) == Some(saved[k]) <==> forall t :: HasText(saved[k], t) ==> !RefShaped(t)
    {
      HoldsSaved(k);
      RoundTrip(saved[k], hash, assets);
      ClientRoundTrip(saved[k], hash, assets);
    }
  }

  lemma LinkedKept(doc: Json, session: string, links: set<Link>, kept: set<Link>, hash: Hash)
    requires Linked(doc, session, links, hash) && forall l :: l in links && l.session == session ==> l in kept
    ensures Linked(doc, session, kept, hash)
  {}

  lemma GrownLinks(was: Shelf, now: Shelf, hash: Hash, doc: Json, session: string)
    requires Grown(was, now, hash, doc, session)
    ensures Linked(doc, session, now.links, hash)
  {}

  lemma LinkedMore(doc: Json, session: string, links: set<Link>, more: set<Link>, hash: Hash)
    requires Linked(doc, session, links, hash) && links <= more
    ensures Linked(doc, session, more, hash)
  {}

  lemma OnlyText(field: Field)
    requires IsText(field)
    ensures forall css :: HasText(Obj([field]), css) <==> css == field.value.s
  {
    forall css ensures HasText(Obj([field]), css) <==> css == field.value.s {
      assert [field][0] == field;
    }
  }

  lemma ValueTexts(field: Field)
    requires !IsText(field)
    ensures forall css :: HasText(Obj([field]), css) <==> HasText(field.value, css)
  {
    forall css ensures HasText(Obj([field]), css) <==> HasText(field.value, css) {
      assert [field][0] == field;
    }
  }
}
