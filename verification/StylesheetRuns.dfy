/** Saves in flight. The source ensures the session, stores each stylesheet and
    inserts the chunk in separate statements, so deletions, re-creations and
    collections may come in between: when does a stored chunk keep its sheets? */
module StylesheetRuns {
  import opened Rows
  import opened Stylesheets
  import opened StylesheetStore

  function Ref(hash: Hash, css: string): string {
    REF_PREFIX + hash(css)
  }

  // ---- One replacement in place ----

  /** b is a with one occurrence of the text t replaced by u. */
  ghost predicate Edit(a: Json, b: Json, t: string, u: string)
    decreases a
  {
    match a
    case Arr(xs) =>
      b.Arr? && |b.items| == |xs|
      && exists i :: 0 <= i < |xs| && Edit(xs[i], b.items[i], t, u) && b.items == xs[i := b.items[i]]
    case Obj(xs) =>
      b.Obj? && |b.fields| == |xs|
      && exists i :: 0 <= i < |xs| && FieldEdit(xs[i], b.fields[i], t, u) && b.fields == xs[i := b.fields[i]]
    case _ => false
  }

  ghost predicate FieldEdit(a: Field, b: Field, t: string, u: string)
    decreases a
  {
    && a.key == b.key
    && if IsText(a) then a.value.s == t && b.value == Str(u) else Edit(a.value, b.value, t, u)
  }

  lemma EditIsNoText(a: Json, b: Json, t: string, u: string)
    requires Edit(a, b, t, u)
    ensures !a.Str? && !b.Str?
  {}

  /** A rewriting that treats t and u alike does not see the replacement. */
  lemma {:induction false} EditUnseen(a: Json, b: Json, t: string, u: string, f: string -> string)
    requires Edit(a, b, t, u) && f(t) == f(u)
    ensures Walk(a, f) == Walk(b, f)
    decreases a
  {
    match a
    case Arr(xs) =>
      var i :| 0 <= i < |xs| && Edit(xs[i], b.items[i], t, u) && b.items == xs[i := b.items[i]];
      EditUnseen(xs[i], b.items[i], t, u, f);
      forall j | 0 <= j < |xs| ensures Walk(xs[j], f) == Walk(b.items[j], f) {}
    case Obj(xs) =>
      var i :| 0 <= i < |xs| && FieldEdit(xs[i], b.fields[i], t, u) && b.fields == xs[i := b.fields[i]];
      if !IsText(xs[i]) {
        EditUnseen(xs[i].value, b.fields[i].value, t, u, f);
        EditIsNoText(xs[i].value, b.fields[i].value, t, u);
      }
      forall j | 0 <= j < |xs| ensures WalkField(xs[j], f) == WalkField(b.fields[j], f) {}
  }

  /** The texts afterwards: u, and what there was, short perhaps of t. */
  lemma {:induction false} EditTexts(a: Json, b: Json, t: string, u: string, x: string)
    requires Edit(a, b, t, u)
    ensures HasText(a, t) && HasText(b, u)
    ensures HasText(b, x) ==> HasText(a, x) || x == u
    ensures HasText(a, x) ==> HasText(b, x) || x == t
    decreases a
  {
    match a
    case Arr(xs) =>
      var i :| 0 <= i < |xs| && Edit(xs[i], b.items[i], t, u) && b.items == xs[i := b.items[i]];
      EditTexts(xs[i], b.items[i], t, u, x);
      ItemTexts(xs, i, b.items[i], t, u, x);
    case Obj(xs) =>
      var i :| 0 <= i < |xs| && FieldEdit(xs[i], b.fields[i], t, u) && b.fields == xs[i := b.fields[i]];
      if !IsText(xs[i]) {
        EditTexts(xs[i].value, b.fields[i].value, t, u, x);
        EditIsNoText(xs[i].value, b.fields[i].value, t, u);
      }
      FieldTexts(xs, i, b.fields[i], t, u, x);
  }

  /** Replacing an item replaces its texts. */
  lemma ItemTexts(xs: seq<Json>, i: nat, y: Json, t: string, u: string, x: string)
    requires i < |xs| && HasText(xs[i], t) && HasText(y, u)
    requires (HasText(y, x) ==> HasText(xs[i], x) || x == u) && (HasText(xs[i], x) ==> HasText(y, x) || x == t)
    ensures HasText(Arr(xs), t) && HasText(Arr(xs[i := y]), u)
    ensures HasText(Arr(xs[i := y]), x) ==> HasText(Arr(xs), x) || x == u
    ensures HasText(Arr(xs), x) ==> HasText(Arr(xs[i := y]), x) || x == t
  {
    var ys := xs[i := y];
    assert ys[i] == y;
    if j :| 0 <= j < |ys| && HasText(ys[j], x) { assert j != i ==> HasText(xs[j], x); }
    if j :| 0 <= j < |xs| && HasText(xs[j], x) { assert j != i ==> HasText(ys[j], x); }
  }

  lemma FieldTexts(xs: seq<Field>, i: nat, y: Field, t: string, u: string, x: string)
    requires i < |xs| && FieldHasText(xs[i], t) && FieldHasText(y, u)
    requires (FieldHasText(y, x) ==> FieldHasText(xs[i], x) || x == u) && (FieldHasText(xs[i], x) ==> FieldHasText(y, x) || x == t)
    ensures HasText(Obj(xs), t) && HasText(Obj(xs[i := y]), u)
    ensures HasText(Obj(xs[i := y]), x) ==> HasText(Obj(xs), x) || x == u
    ensures HasText(Obj(xs), x) ==> HasText(Obj(xs[i := y]), x) || x == t
  {
    hide FieldHasText;
    var ys := xs[i := y];
    assert ys[i] == y;
    if j :| 0 <= j < |ys| && FieldHasText(ys[j], x) { assert j != i ==> FieldHasText(xs[j], x); }
    if j :| 0 <= j < |xs| && FieldHasText(xs[j], x) { assert j != i ==> FieldHasText(ys[j], x); }
  }

  // ---- A partly deduped document ----

  /** The sheet a reference stands for, among those seen. */
  ghost function BackOf(hash: Hash, seen: iset<string>, t: string): string {
    if css :| css in seen && Replaced(css) && t == Ref(hash, css) then css else t
  }

  ghost function Back(hash: Hash, seen: iset<string>): string -> string {
    t => BackOf(hash, seen, t)
  }

  /** `body` is `doc` with some occurrences of its large sheets replaced. */
  ghost predicate PartOf(doc: Json, body: Json, hash: Hash, seen: iset<string>) {
    && Walk(body, Back(hash, seen)) == Walk(doc, Back(hash, seen))
    && Dedupe(body, hash) == Dedupe(doc, hash)
    && (forall u :: HasText(body, u) ==> HasText(doc, u) || IsRefOf(doc, u, hash))
    && (forall u :: HasText(doc, u) && !Replaced(u) ==> HasText(body, u))
  }

  ghost predicate IsRefOf(doc: Json, u: string, hash: Hash) {
    exists css :: HasText(doc, css) && Replaced(css) && u == Ref(hash, css)
  }

  lemma BackIs(hash: Hash, seen: iset<string>, css: string)
    requires HexHash(hash) && InjectiveOn(hash, seen) && css in seen && Replaced(css)
    ensures BackOf(hash, seen, Ref(hash, css)) == css && BackOf(hash, seen, css) == css
  {
    RefOfHash(hash, css);
    var c :| c in seen && Replaced(c) && Ref(hash, css) == Ref(hash, c) && BackOf(hash, seen, Ref(hash, css)) == c;
    RefOfHash(hash, c);
    forall d | d in seen && Replaced(d) ensures css != Ref(hash, d) { RefOfHash(hash, d); }
  }

  lemma PartOfItself(doc: Json, hash: Hash, seen: iset<string>)
    ensures PartOf(doc, doc, hash, seen)
  {}

  lemma RefIsSmall(doc: Json, u: string, hash: Hash)
    requires HexHash(hash)
    ensures IsRefOf(doc, u, hash) ==> !Replaced(u) && IsRef(u)
  {
    if css :| HasText(doc, css) && Replaced(css) && u == Ref(hash, css) { RefOfHash(hash, css); }
  }

  lemma PartOfMore(doc: Json, body: Json, body': Json, hash: Hash, seen: iset<string>, css: string)
    requires HexHash(hash) && InjectiveOn(hash, seen) && Large(doc) <= seen
    requires PartOf(doc, body, hash, seen) && Replaced(css) && Edit(body, body', css, Ref(hash, css))
    ensures PartOf(doc, body', hash, seen) && HasText(doc, css)
  {
    var u := Ref(hash, css);
    RefOfHash(hash, css);
    EditTexts(body, body', css, u, css);
    RefIsSmall(doc, css, hash);
    assert HasText(doc, css) && css in Large(doc);
    BackIs(hash, seen, css);
    EditUnseen(body, body', css, u, Back(hash, seen));
    EditUnseen(body, body', css, u, Shrink(hash));
    forall x | HasText(body', x) ensures HasText(doc, x) || IsRefOf(doc, x, hash) { EditTexts(body, body', css, u, x); }
    forall x | HasText(doc, x) && !Replaced(x) ensures HasText(body', x) { EditTexts(body, body', css, u, x); }
  }

  /** With no large sheet left, it is the deduped document. */
  lemma DoneIsDeduped(doc: Json, body: Json, hash: Hash, seen: iset<string>)
    requires PartOf(doc, body, hash, seen) && forall css :: HasText(body, css) ==> !Replaced(css)
    ensures body == Dedupe(doc, hash)
  {
    WalkAgrees(body, Shrink(hash), t => t);
    WalkNothing(body);
  }

  /** Assets lie under their own hash and are large sheets that were seen. */
  ghost predicate AssetsOk(assets: map<string, string>, hash: Hash, seen: iset<string>) {
    forall h :: h in assets ==> h == hash(assets[h]) && assets[h] in seen && Replaced(assets[h])
  }

  /** A partly deduped document that resolves reads back as the document exactly when
      that held no text shaped like a reference. */
  lemma PartReadsBack(doc: Json, body: Json, hash: Hash, seen: iset<string>, assets: map<string, string>)
    requires HexHash(hash) && InjectiveOn(hash, seen) && Large(doc) <= seen && AssetsOk(assets, hash, seen)
    requires PartOf(doc, body, hash, seen) && Resolves(body, assets)
    ensures Rehydrate(body, assets) == Some(doc) <==> forall t :: HasText(doc, t) ==> !IsRef(t)
  {
    if forall t :: HasText(doc, t) ==> !IsRef(t) {
      forall u | HasText(body, u) ensures Expand(assets)(u) == Back(hash, seen)(u) {
        TextBack(doc, body, hash, seen, assets, u);
      }
      WalkAgrees(body, Expand(assets), Back(hash, seen));
      forall t | HasText(doc, t) ensures BackOf(hash, seen, t) == t { NoRefStays(hash, seen, t); }
      WalkAgrees(doc, Back(hash, seen), t => t);
      WalkNothing(doc);
    } else {
      NoRefsLeft(body, assets);
    }
  }

  /** What was expanded in full holds no reference. */
  lemma NoRefsLeft(body: Json, assets: map<string, string>)
    requires Resolves(body, assets) && forall h :: h in assets ==> Replaced(assets[h])
    ensures forall t :: HasText(Walk(body, Expand(assets)), t) ==> !IsRef(t)
  {
    forall t | HasText(Walk(body, Expand(assets)), t) ensures !IsRef(t) {
      TextsAfter(body, Expand(assets), t);
      var u :| HasText(body, u) && Expand(assets)(u) == t;
    }
  }

  lemma NoRefStays(hash: Hash, seen: iset<string>, t: string)
    requires HexHash(hash) && !IsRef(t)
    ensures BackOf(hash, seen, t) == t
  {
    forall css | css in seen && Replaced(css) ensures t != Ref(hash, css) { RefOfHash(hash, css); }
  }

  lemma TextBack(doc: Json, body: Json, hash: Hash, seen: iset<string>, assets: map<string, string>, u: string)
    requires HexHash(hash) && InjectiveOn(hash, seen) && Large(doc) <= seen && AssetsOk(assets, hash, seen)
    requires PartOf(doc, body, hash, seen) && Resolves(body, assets) && HasText(body, u)
    requires forall t :: HasText(doc, t) ==> !IsRef(t)
    ensures Expand(assets)(u) == BackOf(hash, seen, u)
  {
    if HasText(doc, u) {
      NoRefStays(hash, seen, u);
    } else {
      var css :| HasText(doc, css) && Replaced(css) && u == Ref(hash, css);
      RefOfHash(hash, css);
      assert css in Large(doc);
      BackIs(hash, seen, css);
      assert RefHash(u) == hash(css) && hash(css) in assets;
      assert assets[hash(css)] == css;
    }
  }

  // ---- The steps ----

  /** A save between its statements. `intact` remembers that its session was not
      deleted since it first replaced a sheet. */
  datatype Save = Save(key: ChunkKey, doc: Json, body: Json, intact: bool)

  /** A stored chunk; `doc` remembers what was saved. */
  datatype Stored = Stored(body: Json, doc: Json)

  datatype State = State(
    sessions: set<string>,
    chunks: map<ChunkKey, Stored>,
    shelf: Shelf,
    saves: map<nat, Save>)

  const Empty := State({}, map[], Shelf(map[], {}), map[])

  datatype Step =
    | Ensure(session: string)                         // another request of the session
    | Begin(id: nat, key: ChunkKey, doc: Json)        // a save, up to ensuring its session
    | Put(id: nat, css: string, body: Json)           // putCSSAsset, and the reference in place
    | PutFails(id: nat, css: string)                  // the link is refused: the sheet stays inline
    | Insert(id: nat)                                 // the chunk's upsert
    | Delete(session: string)
    | Collect

  function Held(assets: map<string, string>, h: string, css: string): map<string, string> {
    if h in assets then assets else assets[h := css]
  }

  /** What walking in any order may replace next; a sheet was seen when its document
      arrived. */
  ghost predicate Enabled(st: State, step: Step, hash: Hash, seen: iset<string>) {
    match step
    case Begin(id, _, doc) => id !in st.saves && Large(doc) <= seen
    case Put(id, css, body) =>
      id in st.saves && st.saves[id].key.session in st.sessions && Replaced(css) && Edit(st.saves[id].body, body, css, Ref(hash, css))
    case PutFails(id, css) => id in st.saves && Replaced(css) && HasText(st.saves[id].body, css)
    case Insert(id) => id in st.saves
    case _ => true
  }

  function Apply(st: State, step: Step, hash: Hash): State {
    match step
    case Ensure(session) => st.(sessions := st.sessions + {session})
    case Begin(id, key, doc) => st.(sessions := st.sessions + {key.session}, saves := st.saves[id := Save(key, doc, doc, true)])
    case Put(id, css, body) =>
      if id !in st.saves then st else
        var save := st.saves[id];
        var h := hash(css);
        st.(shelf := Shelf(Held(st.shelf.assets, h, css), st.shelf.links + {Link(save.key.session, h)}), saves := st.saves[id := save.(body := body)])
    case PutFails(id, css) => st.(shelf := st.shelf.(assets := Held(st.shelf.assets, hash(css), css)))
    case Insert(id) =>
      if id !in st.saves then st else
        var save := st.saves[id];
        var rest := st.saves - {id};
        if save.key.session !in st.sessions then st.(saves := rest)      // the foreign key refuses it
        else st.(chunks := st.chunks[save.key := Stored(save.body, save.doc)], saves := rest)
    case Delete(session) =>
      State(st.sessions - {session}, map k | k in st.chunks && k.session != session :: st.chunks[k],
            st.shelf.(links := set l | l in st.shelf.links && l.session != session),
            map id | id in st.saves :: if st.saves[id].key.session == session then Disturbed(st.saves[id]) else st.saves[id])
    case Collect =>
      var used := set l | l in st.shelf.links :: l.hash;
      st.(shelf := st.shelf.(assets := map h | h in st.shelf.assets && h in used :: st.shelf.assets[h]))
  }

  function Disturbed(save: Save): Save {
    save.(intact := save.intact && save.body == save.doc)
  }

  // ---- The invariant ----

  /** Every reference of the document is linked to the session. */
  ghost predicate AllLinked(body: Json, session: string, links: set<Link>) {
    forall u :: HasText(body, u) && IsRef(u) ==> Link(session, RefHash(u)) in links
  }

  /** Every reference the save put in is linked to its session. */
  ghost predicate PutsLinked(save: Save, links: set<Link>, hash: Hash) {
    forall u :: HasText(save.body, u) && !HasText(save.doc, u) && IsRef(u) ==> Link(save.key.session, RefHash(u)) in links
  }

  ghost predicate LinksOk(st: State) {
    forall l :: l in st.shelf.links ==> l.session in st.sessions && l.hash in st.shelf.assets
  }

  ghost predicate SavesOk(st: State, hash: Hash, seen: iset<string>) {
    forall id :: id in st.saves ==> SaveOk(st.saves[id], st.shelf.links, hash, seen)
  }

  ghost predicate SaveOk(save: Save, links: set<Link>, hash: Hash, seen: iset<string>) {
    Large(save.doc) <= seen && PartOf(save.doc, save.body, hash, seen) && (save.intact ==> PutsLinked(save, links, hash))
  }

  ghost predicate ChunksGood(st: State, hash: Hash, seen: iset<string>) {
    forall k :: k in st.chunks ==> ChunkGood(st, k, hash, seen)
  }

  ghost predicate ChunkGood(st: State, k: ChunkKey, hash: Hash, seen: iset<string>)
    requires k in st.chunks
  {
    k.session in st.sessions && Large(st.chunks[k].doc) <= seen && PartOf(st.chunks[k].doc, st.chunks[k].body, hash, seen)
  }

  ghost predicate Ok(st: State, hash: Hash, seen: iset<string>) {
    && HexHash(hash) && InjectiveOn(hash, seen)
    && LinksOk(st) && AssetsOk(st.shelf.assets, hash, seen) && SavesOk(st, hash, seen) && ChunksGood(st, hash, seen)
  }

  /** In every such state the stored sheets are large, and the chunks of a session are
      the documents saved with some of their sheets replaced. */
  lemma StoredAreLarge(st: State, hash: Hash, seen: iset<string>)
    requires Ok(st, hash, seen)
    ensures forall h :: h in st.shelf.assets ==>
              h == hash(st.shelf.assets[h]) && |st.shelf.assets[h]| >= 16_384 && !("@traceux-css-ref:" <= st.shelf.assets[h])
    ensures forall k, t :: k in st.chunks && HasText(st.chunks[k].body, t) ==>
              HasText(st.chunks[k].doc, t) || exists css :: HasText(st.chunks[k].doc, css) && |css| >= 16_384 && t == "@traceux-css-ref:" + hash(css)
    ensures forall k, t :: k in st.chunks && HasText(st.chunks[k].doc, t) && |t| < 16_384 ==> HasText(st.chunks[k].body, t)
  {
    LargeIs(hash);
    hide HasText, Replaced, SavesOk, LinksOk;
    forall k, t | k in st.chunks && HasText(st.chunks[k].body, t)
      ensures HasText(st.chunks[k].doc, t) || exists css :: HasText(st.chunks[k].doc, css) && |css| >= 16_384 && t == "@traceux-css-ref:" + hash(css)
    {
      assert ChunkGood(st, k, hash, seen);
    }
    forall k, t | k in st.chunks && HasText(st.chunks[k].doc, t) && |t| < 16_384 ensures HasText(st.chunks[k].body, t) {
      assert ChunkGood(st, k, hash, seen);
    }
  }

  lemma EmptyOk(hash: Hash, seen: iset<string>)
    requires HexHash(hash) && InjectiveOn(hash, seen)
    ensures Ok(Empty, hash, seen)
  {}

  lemma PutKeepsSave(save: Save, body: Json, links: set<Link>, hash: Hash, seen: iset<string>, css: string)
    requires HexHash(hash) && InjectiveOn(hash, seen) && SaveOk(save, links, hash, seen)
    requires Replaced(css) && Edit(save.body, body, css, Ref(hash, css))
    ensures css in seen && SaveOk(save.(body := body), links + {Link(save.key.session, hash(css))}, hash, seen)
  {
    PartOfMore(save.doc, save.body, body, hash, seen, css);
    assert css in Large(save.doc);
    RefOfHash(hash, css);
    if save.intact {
      forall u | HasText(body, u) && !HasText(save.doc, u) && IsRef(u)
        ensures Link(save.key.session, RefHash(u)) in links + {Link(save.key.session, hash(css))}
      {
        EditTexts(save.body, body, css, Ref(hash, css), u);
      }
    }
  }

  lemma MoreLinks(save: Save, links: set<Link>, more: set<Link>, hash: Hash, seen: iset<string>)
    requires SaveOk(save, links, hash, seen) && links <= more
    ensures SaveOk(save, more, hash, seen)
  {}

  lemma DeleteKeepsSave(save: Save, links: set<Link>, hash: Hash, seen: iset<string>, session: string)
    requires SaveOk(save, links, hash, seen)
    ensures SaveOk(if save.key.session == session then Disturbed(save) else save, (set l | l in links && l.session != session), hash, seen)
  {
    hide PartOf, Large, HasText;
  }

  lemma PutKeeps(st: State, id: nat, css: string, body: Json, hash: Hash, seen: iset<string>)
    requires Ok(st, hash, seen) && Enabled(st, Put(id, css, body), hash, seen)
    ensures Ok(Apply(st, Put(id, css, body), hash), hash, seen)
  {
    hide SaveOk, PartOf, Large, HexHash, InjectiveOn, Edit, Replaced, HasText;
    var save := st.saves[id];
    var links := st.shelf.links + {Link(save.key.session, hash(css))};
    PutKeepsSave(save, body, st.shelf.links, hash, seen, css);
    forall i | i in st.saves ensures SaveOk(st.saves[i], links, hash, seen) { MoreLinks(st.saves[i], st.shelf.links, links, hash, seen); }
  }

  lemma FailKeeps(st: State, id: nat, css: string, hash: Hash, seen: iset<string>)
    requires Ok(st, hash, seen) && Enabled(st, PutFails(id, css), hash, seen)
    ensures Ok(Apply(st, PutFails(id, css), hash), hash, seen)
  {
    FailSeen(st.saves[id], st.shelf.links, hash, seen, css);
    hide SaveOk, PartOf, Large, HexHash, InjectiveOn, HasText, Replaced, ChunkGood;
    HeldOk(st.shelf.assets, hash, seen, css);
  }

  lemma FailSeen(save: Save, links: set<Link>, hash: Hash, seen: iset<string>, css: string)
    requires HexHash(hash) && SaveOk(save, links, hash, seen) && Replaced(css) && HasText(save.body, css)
    ensures css in seen
  {
    RefIsSmall(save.doc, css, hash);
    assert css in Large(save.doc);
  }

  lemma HeldOk(assets: map<string, string>, hash: Hash, seen: iset<string>, css: string)
    requires AssetsOk(assets, hash, seen) && css in seen && Replaced(css)
    ensures AssetsOk(Held(assets, hash(css), css), hash, seen)
  {}

  lemma DeleteKeeps(st: State, session: string, hash: Hash, seen: iset<string>)
    requires Ok(st, hash, seen)
    ensures Ok(Apply(st, Delete(session), hash), hash, seen)
  {
    hide SaveOk, PartOf, Large, HexHash, InjectiveOn, HasText, AssetsOk;
    var links := set l | l in st.shelf.links && l.session != session;
    forall i | i in st.saves
      ensures SaveOk(if st.saves[i].key.session == session then Disturbed(st.saves[i]) else st.saves[i], links, hash, seen)
    {
      DeleteKeepsSave(st.saves[i], st.shelf.links, hash, seen, session);
    }
  }

  /** Every step keeps the invariant. */
  lemma StepKeeps(st: State, step: Step, hash: Hash, seen: iset<string>)
    requires Ok(st, hash, seen) && Enabled(st, step, hash, seen)
    ensures Ok(Apply(st, step, hash), hash, seen)
  {
    match step
    case Put(id, css, body) => PutKeeps(st, id, css, body, hash, seen);
    case PutFails(id, css) => FailKeeps(st, id, css, hash, seen);
    case Delete(session) => DeleteKeeps(st, session, hash, seen);
    case Begin(id, key, doc) => BeginKeeps(st, id, key, doc, hash, seen);
    case _ => RestKeeps(st, step, hash, seen);
  }

  lemma BeginKeeps(st: State, id: nat, key: ChunkKey, doc: Json, hash: Hash, seen: iset<string>)
    requires Ok(st, hash, seen) && Enabled(st, Begin(id, key, doc), hash, seen)
    ensures Ok(Apply(st, Begin(id, key, doc), hash), hash, seen)
  {
    hide PartOf, Large, HexHash, InjectiveOn, AssetsOk;
    PartOfItself(doc, hash, seen);
  }

  lemma RestKeeps(st: State, step: Step, hash: Hash, seen: iset<string>)
    requires Ok(st, hash, seen) && Enabled(st, step, hash, seen) && (step.Ensure? || step.Insert? || step.Collect?)
    ensures Ok(Apply(st, step, hash), hash, seen)
  {
    hide PartOf, Large, HexHash, InjectiveOn, HasText, Edit, Replaced;
  }

  // ---- Runs ----

  function After(st: State, steps: seq<Step>, hash: Hash): State
    decreases |steps|
  {
    if steps == [] then st else After(Apply(st, steps[0], hash), steps[1..], hash)
  }

  ghost predicate IsRun(st: State, steps: seq<Step>, hash: Hash, seen: iset<string>)
    decreases |steps|
  {
    steps == [] || (Enabled(st, steps[0], hash, seen) && IsRun(Apply(st, steps[0], hash), steps[1..], hash, seen))
  }

  lemma {:induction false} RunKeeps(st: State, steps: seq<Step>, hash: Hash, seen: iset<string>)
    requires Ok(st, hash, seen) && IsRun(st, steps, hash, seen)
    ensures Ok(After(st, steps, hash), hash, seen)
    decreases |steps|
  {
    hide Ok, Enabled, Apply;
    if steps != [] {
      StepKeeps(st, steps[0], hash, seen);
      RunKeeps(Apply(st, steps[0], hash), steps[1..], hash, seen);
    }
  }

  /** Whatever saves, deletions, re-creations and collections interleave. */
  lemma Reachable(steps: seq<Step>, hash: Hash, seen: iset<string>)
    requires HexHash(hash) && InjectiveOn(hash, seen) && IsRun(Empty, steps, hash, seen)
    ensures Ok(After(Empty, steps, hash), hash, seen)
  {
    EmptyOk(hash, seen);
    RunKeeps(Empty, steps, hash, seen);
  }

  /** The run neither deletes the chunk's session nor stores another under its key. */
  ghost predicate Spares(st: State, steps: seq<Step>, k: ChunkKey, hash: Hash)
    decreases |steps|
  {
    steps == [] || (SparesIt(st, steps[0], k) && Spares(Apply(st, steps[0], hash), steps[1..], k, hash))
  }

  predicate SparesIt(st: State, step: Step, k: ChunkKey) {
    match step
    case Delete(session) => session != k.session
    case Insert(id) => id in st.saves ==> st.saves[id].key != k
    case _ => true
  }

  lemma SparedStep(st: State, step: Step, k: ChunkKey, hash: Hash)
    requires k in st.chunks && SparesIt(st, step, k)
    ensures var st' := Apply(st, step, hash);
            && k in st'.chunks && st'.chunks[k] == st.chunks[k]
            && forall l :: l in st.shelf.links && l.session == k.session ==> l in st'.shelf.links
  {}

  lemma {:induction false} SparedRun(st: State, steps: seq<Step>, k: ChunkKey, hash: Hash)
    requires k in st.chunks && Spares(st, steps, k, hash)
    ensures var st' := After(st, steps, hash);
            && k in st'.chunks && st'.chunks[k] == st.chunks[k]
            && forall l :: l in st.shelf.links && l.session == k.session ==> l in st'.shelf.links
    decreases |steps|
  {
    hide Apply, SparesIt;
    if steps != [] {
      SparedStep(st, steps[0], k, hash);
      SparedRun(Apply(st, steps[0], hash), steps[1..], k, hash);
    }
  }

  lemma LinkedResolves(st: State, body: Json, session: string)
    requires LinksOk(st) && AllLinked(body, session, st.shelf.links)
    ensures Resolves(body, st.shelf.assets)
  {
    forall u | HasText(body, u) && IsRef(u) ensures RefHash(u) in st.shelf.assets {
      assert Link(session, RefHash(u)) in st.shelf.links;
    }
  }

  /** Delete every session but one. */
  lemma {:induction false} DeleteOthers(st: State, gone: set<string>, k: ChunkKey, hash: Hash, seen: iset<string>) returns (steps: seq<Step>)
    requires k.session !in gone
    ensures IsRun(st, steps, hash, seen) && Spares(st, steps, k, hash)
    ensures After(st, steps, hash).shelf.links == set l | l in st.shelf.links && l.session !in gone
    decreases gone
  {
    if gone == {} {
      steps := [];
      assert st.shelf.links == set l | l in st.shelf.links && l.session !in gone;
    } else {
      var session := Member(gone);
      var step := Delete(session);
      var st' := Apply(st, step, hash);
      var rest := DeleteOthers(st', gone - {session}, k, hash, seen);
      steps := [step] + rest;
      assert steps[1..] == rest;
      assert Enabled(st, step, hash, seen) && SparesIt(st, step, k);
      assert st'.shelf.links == set l | l in st.shelf.links && l.session != session;
    }
  }

  lemma {:induction false} RunThen(st: State, steps: seq<Step>, last: Step, k: ChunkKey, hash: Hash, seen: iset<string>)
    requires IsRun(st, steps, hash, seen) && Spares(st, steps, k, hash)
    requires Enabled(After(st, steps, hash), last, hash, seen) && SparesIt(After(st, steps, hash), last, k)
    ensures IsRun(st, steps + [last], hash, seen) && Spares(st, steps + [last], k, hash)
    ensures After(st, steps + [last], hash) == Apply(After(st, steps, hash), last, hash)
    decreases |steps|
  {
    hide Enabled, SparesIt, Apply;
    if steps == [] {
      assert steps + [last] == [last];
      assert [last][1..] == [];
    } else {
      assert (steps + [last])[1..] == steps[1..] + [last];
      RunThen(Apply(st, steps[0], hash), steps[1..], last, k, hash, seen);
    }
  }

  lemma OkLinks(st: State, hash: Hash, seen: iset<string>)
    requires Ok(st, hash, seen)
    ensures LinksOk(st)
  {}

  /** A reference that is not linked to the chunk's own session can be collected. */
  lemma UnlinkedCanGo(st: State, k: ChunkKey, hash: Hash, seen: iset<string>) returns (steps: seq<Step>)
    requires Ok(st, hash, seen) && k in st.chunks && !AllLinked(st.chunks[k].body, k.session, st.shelf.links)
    ensures IsRun(st, steps, hash, seen) && Spares(st, steps, k, hash)
    ensures !Resolves(st.chunks[k].body, After(st, steps, hash).shelf.assets)
  {
    hide Ok, IsRun, Spares, After, HasText, LinksOk;
    var body := st.chunks[k].body;
    var u :| HasText(body, u) && IsRef(u) && Link(k.session, RefHash(u)) !in st.shelf.links;
    OkLinks(st, hash, seen);
    var deletes := DeleteOthers(st, st.sessions - {k.session}, k, hash, seen);
    var st1 := After(st, deletes, hash);
    forall l | l in st1.shelf.links ensures l.hash != RefHash(u) {
      assert l == Link(l.session, l.hash);
      assert l.session == k.session;
    }
    steps := deletes + [Collect];
    RunThen(st, deletes, Collect, k, hash, seen);
    assert RefHash(u) !in Apply(st1, Collect, hash).shelf.assets;
  }

  /** It resolves in every state a sparing run can reach. */
  ghost predicate ResolvesForever(st: State, k: ChunkKey, hash: Hash, seen: iset<string>)
    requires k in st.chunks
  {
    forall steps :: IsRun(st, steps, hash, seen) && Spares(st, steps, k, hash) ==> Resolves(st.chunks[k].body, After(st, steps, hash).shelf.assets)
  }

  /** The exact condition: from any state, and so from the one its insert left, a
      stored chunk resolves for as long as it stands exactly when every reference
      in it is linked to its session there. */
  lemma ResolvesForeverIff(st: State, k: ChunkKey, hash: Hash, seen: iset<string>)
    requires Ok(st, hash, seen) && k in st.chunks
    ensures ResolvesForever(st, k, hash, seen) <==> AllLinked(st.chunks[k].body, k.session, st.shelf.links)
  {
    var body := st.chunks[k].body;
    if AllLinked(body, k.session, st.shelf.links) {
      forall steps | IsRun(st, steps, hash, seen) && Spares(st, steps, k, hash) ensures Resolves(body, After(st, steps, hash).shelf.assets) {
        SparedRun(st, steps, k, hash);
        RunKeeps(st, steps, hash, seen);
        hide IsRun, Spares, After, HasText;
        LinkedResolves(After(st, steps, hash), body, k.session);
      }
    } else {
      var steps := UnlinkedCanGo(st, k, hash, seen);
    }
  }

  /** What a caller can check: a save whose session was not deleted since its first
      replaced sheet, of a document without references of its own, stores a chunk
      that resolves for as long as it stands. */
  lemma IntactSaveIsLinked(st: State, id: nat, hash: Hash, seen: iset<string>)
    requires Ok(st, hash, seen) && id in st.saves && st.saves[id].intact && st.saves[id].key.session in st.sessions
    requires forall t :: HasText(st.saves[id].doc, t) ==> !IsRef(t)
    ensures var save, st' := st.saves[id], Apply(st, Insert(id), hash);
            && save.key in st'.chunks && st'.chunks[save.key] == Stored(save.body, save.doc)
            && AllLinked(save.body, save.key.session, st'.shelf.links)
            && ResolvesForever(st', save.key, hash, seen)
  {
    var save, st' := st.saves[id], Apply(st, Insert(id), hash);
    assert SaveOk(save, st.shelf.links, hash, seen);
    StepKeeps(st, Insert(id), hash, seen);
    hide Ok, PartOf, Large;
    ResolvesForeverIff(st', save.key, hash, seen);
    hide ResolvesForever;
  }

  /** In every reachable state a stored chunk that resolves reads back as the document
      last saved, exactly when that held no text shaped like a reference. */
  lemma ReadsBack(st: State, k: ChunkKey, hash: Hash, seen: iset<string>)
    requires Ok(st, hash, seen) && k in st.chunks && Resolves(st.chunks[k].body, st.shelf.assets)
    ensures Rehydrate(st.chunks[k].body, st.shelf.assets) == Some(st.chunks[k].doc) <==> forall t :: HasText(st.chunks[k].doc, t) ==> !IsRef(t)
  {
    assert ChunkGood(st, k, hash, seen);
    hide Rehydrate, PartOf, Large, Resolves, HasText, SavesOk, LinksOk;
    PartReadsBack(st.chunks[k].doc, st.chunks[k].body, hash, seen, st.shelf.assets);
  }

  /** The dashboard shows it so exactly when nothing had a reference's length and
      prefix. */
  lemma ClientReadsBack(st: State, k: ChunkKey, hash: Hash, seen: iset<string>)
    requires Ok(st, hash, seen) && k in st.chunks && Resolves(st.chunks[k].body, st.shelf.assets)
    ensures ClientRehydrate(st.chunks[k].body, st.shelf.assets) == Some(st.chunks[k].doc) <==>
              forall t :: HasText(st.chunks[k].doc, t) ==> !RefShaped(t)
  {
    var doc, body, assets := st.chunks[k].doc, st.chunks[k].body, st.shelf.assets;
    assert ChunkGood(st, k, hash, seen);
    ReadsBack(st, k, hash, seen);
    forall h | h in assets ensures IsHex(h) { assert h == hash(assets[h]); }
    ClientIsServer(body, assets);
    forall u | HasText(body, u) ensures HasText(doc, u) || IsRef(u) { RefIsSmall(doc, u, hash); }
    hide Rehydrate, Large, SavesOk, LinksOk, ChunksGood, Walk;
    if u :| HasText(body, u) && RefShaped(u) && !IsRef(u) {
      assert HasText(doc, u) && RefHash(u) !in assets;
    } else {
      forall t | HasText(doc, t) && RefShaped(t) ensures IsRef(t) { assert HasText(body, t); }
    }
  }

  /** A save that replaced every large sheet stores the deduped document. */
  lemma FinishedSaveIsDeduped(st: State, id: nat, hash: Hash, seen: iset<string>)
    requires Ok(st, hash, seen) && id in st.saves && forall css :: HasText(st.saves[id].body, css) ==> !Replaced(css)
    ensures st.saves[id].body == Dedupe(st.saves[id].doc, hash)
  {
    assert SaveOk(st.saves[id], st.shelf.links, hash, seen);
    DoneIsDeduped(st.saves[id].doc, st.saves[id].body, hash, seen);
  }

  /** The deduped document is one with some, namely all, large sheets replaced. */
  lemma DedupedIsPart(doc: Json, hash: Hash, seen: iset<string>)
    requires HexHash(hash) && InjectiveOn(hash, seen) && Large(doc) <= seen
    ensures PartOf(doc, Dedupe(doc, hash), hash, seen)
  {
    var shrink, back := Shrink(hash), Back(hash, seen);
    var both := (t: string) => back(shrink(t));
    forall t | HasText(doc, t) ensures both(t) == back(t) {
      if Replaced(t) {
        assert t in Large(doc);
        BackIs(hash, seen, t);
      }
    }
    WalkTwice(doc, shrink, back);
    WalkAgrees(doc, both, back);
    DedupeIdempotent(doc, hash);
    forall u | HasText(Dedupe(doc, hash), u) ensures HasText(doc, u) || IsRefOf(doc, u, hash) { TextsAfter(doc, shrink, u); }
    forall u | HasText(doc, u) && !Replaced(u) ensures HasText(Dedupe(doc, hash), u) {
      assert shrink(u) == u;
      TextsAfter(doc, shrink, u);
    }
  }

  /** What the store object holds between its uninterrupted saves is such a state,
      with no save in flight. */
  lemma StoreIsState(store: Store)
    requires store.Valid()
    ensures Ok(State(store.sessions, map k | k in store.chunks && k in store.saved :: Stored(store.chunks[k], store.saved[k]), store.Rows(), map[]), store.hash, store.seen)
  {
    var st := State(store.sessions, map k | k in store.chunks && k in store.saved :: Stored(store.chunks[k], store.saved[k]), store.Rows(), map[]);
    forall k | k in st.chunks ensures ChunkGood(st, k, store.hash, store.seen) {
      DedupedIsPart(store.saved[k], store.hash, store.seen);
    }
    hide HexHash, InjectiveOn, Linked, Dedupe, PartOf, Large;
  }

  // ---- The failing run ----

  function Sheet(css: string): Json {
    Obj([Field(CSS_KEY, Str(css))])
  }

  /** The session is deleted after the sheet was put, re-created by another request,
      the sheet collected, and only then the chunk inserted. */
  function DanglingRun(k: ChunkKey, css: string, hash: Hash): seq<Step> {
    [Begin(0, k, Sheet(css)), Put(0, css, Sheet(Ref(hash, css))), Delete(k.session), Ensure(k.session), Collect, Insert(0)]
  }

  lemma SheetTexts(css: string, t: string)
    ensures HasText(Sheet(css), t) <==> t == css
  {
    assert Sheet(css).fields[0] == Field(CSS_KEY, Str(css));
  }

  lemma DanglingBegins(k: ChunkKey, css: string, hash: Hash)
    requires HexHash(hash) && Replaced(css)
    ensures var doc, body, h := Sheet(css), Sheet(Ref(hash, css)), hash(css);
            var st1 := State({k.session}, map[], Shelf(map[], {}), map[0 := Save(k, doc, doc, true)]);
            var st2 := State({k.session}, map[], Shelf(map[h := css], {Link(k.session, h)}), map[0 := Save(k, doc, body, true)]);
            && Apply(Empty, Begin(0, k, doc), hash) == st1 && Apply(st1, Put(0, css, body), hash) == st2
            && Apply(st2, Delete(k.session), hash) == State({}, map[], Shelf(map[h := css], {}), map[0 := Save(k, doc, body, false)])
  {
    var doc, body, h := Sheet(css), Sheet(Ref(hash, css)), hash(css);
    RefOfHash(hash, css);
    var st2 := State({k.session}, map[], Shelf(map[h := css], {Link(k.session, h)}), map[0 := Save(k, doc, body, true)]);
    var st3 := Apply(st2, Delete(k.session), hash);
    assert body.fields[0].value != doc.fields[0].value;
    assert st3.shelf.links == {} && st3.chunks == map[];
  }

  lemma DanglingEnds(k: ChunkKey, css: string, hash: Hash)
    ensures var doc, body, h := Sheet(css), Sheet(Ref(hash, css)), hash(css);
            var st3 := State({}, map[], Shelf(map[h := css], {}), map[0 := Save(k, doc, body, false)]);
            var st4 := st3.(sessions := {k.session});
            var st5 := st4.(shelf := Shelf(map[], {}));
            && Apply(st3, Ensure(k.session), hash) == st4 && Apply(st4, Collect, hash) == st5
            && Apply(st5, Insert(0), hash) == State({k.session}, map[k := Stored(body, doc)], Shelf(map[], {}), map[])
  {
    var doc, body, h := Sheet(css), Sheet(Ref(hash, css)), hash(css);
    var st4 := State({k.session}, map[], Shelf(map[h := css], {}), map[0 := Save(k, doc, body, false)]);
    assert Apply(st4, Collect, hash).shelf.assets == map[];
    var st5 := st4.(shelf := Shelf(map[], {}));
    assert st5.saves - {0} == map[];
  }

  /** The edit that puts the reference in place. */
  lemma SheetEdit(css: string, u: string)
    ensures Edit(Sheet(css), Sheet(u), css, u)
  {
    var a, b := Sheet(css), Sheet(u);
    assert FieldEdit(a.fields[0], b.fields[0], css, u) && b.fields == a.fields[0 := b.fields[0]];
  }

  /** The failing run: a chunk stored after its links are gone does not resolve. */
  lemma InterruptedSaveDangles(k: ChunkKey, css: string, hash: Hash, seen: iset<string>)
    requires HexHash(hash) && InjectiveOn(hash, seen) && Replaced(css) && css in seen
    ensures var steps := DanglingRun(k, css, hash); var st := After(Empty, steps, hash);
            && IsRun(Empty, steps, hash, seen) && k in st.chunks && st.chunks[k].doc == Sheet(css)
            && !Resolves(st.chunks[k].body, st.shelf.assets) && Rehydrate(st.chunks[k].body, st.shelf.assets).None?
  {
    hide Apply, HasText, Edit, After, IsRun, HexHash, InjectiveOn, Ref, Replaced, Resolves;
    var steps := DanglingRun(k, css, hash);
    var doc, body, h := Sheet(css), Sheet(Ref(hash, css)), hash(css);
    DanglingBegins(k, css, hash);
    DanglingEnds(k, css, hash);
    SheetEdit(css, Ref(hash, css));
    SheetsSeen(css, hash, seen);
    var st1 := Apply(Empty, steps[0], hash);
    var st2 := Apply(st1, steps[1], hash);
    var st3 := Apply(st2, steps[2], hash);
    var st4 := Apply(st3, steps[3], hash);
    var st5 := Apply(st4, steps[4], hash);
    var st6 := Apply(st5, steps[5], hash);
    Suffixes(steps, Empty, 0, hash, seen);
    Suffixes(steps, st1, 1, hash, seen);
    Suffixes(steps, st2, 2, hash, seen);
    Suffixes(steps, st3, 3, hash, seen);
    Suffixes(steps, st4, 4, hash, seen);
    Suffixes(steps, st5, 5, hash, seen);
    assert steps[0..] == steps && steps[6..] == [];
    NoSteps(st6, hash, seen);
    Dangling(css, hash, st6.shelf.assets);
  }

  lemma SheetsSeen(css: string, hash: Hash, seen: iset<string>)
    requires css in seen
    ensures Large(Sheet(css)) <= seen && HasText(Sheet(css), css)
  {
    forall t ensures HasText(Sheet(css), t) <==> t == css { SheetTexts(css, t); }
  }

  /** A reference to a sheet that is gone does not resolve. */
  lemma Dangling(css: string, hash: Hash, assets: map<string, string>)
    requires HexHash(hash) && Replaced(css) && hash(css) !in assets
    ensures !Resolves(Sheet(Ref(hash, css)), assets) && Rehydrate(Sheet(Ref(hash, css)), assets).None?
  {
    RefOfHash(hash, css);
    SheetTexts(Ref(hash, css), Ref(hash, css));
  }

  lemma NoSteps(st: State, hash: Hash, seen: iset<string>)
    ensures After(st, [], hash) == st && IsRun(st, [], hash, seen)
  {}

  lemma Suffixes(steps: seq<Step>, st: State, i: nat, hash: Hash, seen: iset<string>)
    requires i < |steps|
    ensures After(st, steps[i..], hash) == After(Apply(st, steps[i], hash), steps[i + 1..], hash)
    ensures IsRun(st, steps[i..], hash, seen) <==> Enabled(st, steps[i], hash, seen) && IsRun(Apply(st, steps[i], hash), steps[i + 1..], hash, seen)
  {
    assert steps[i..][1..] == steps[i + 1..];
  }
}
