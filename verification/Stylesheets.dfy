/** Stylesheet deduplication: inlined CSS is replaced by a reference to its
    content hash, garbage collected with the sessions that refer to it, and put
    back before replay. */
module Stylesheets {
  import opened Rows

  datatype Json =
    | Null
    | Bool(b: bool)
    | Num(n: int)
    | Str(s: string)
    | Arr(items: seq<Json>)
    | Obj(fields: seq<Field>)
  datatype Field = Field(key: string, value: Json)

  const CSS_KEY := "_cssText"
  const REF_PREFIX := "@traceux-css-ref:"
  const HASH_LENGTH := 64
  const MIN_BYTES := 16_384

  /** A hash, like SHA-256 in hex. */
  type Hash = string -> string

  predicate IsHex(s: string) {
    forall i :: 0 <= i < |s| ==> '0' <= s[i] <= '9' || 'a' <= s[i] <= 'f' || 'A' <= s[i] <= 'F'
  }

  ghost predicate HexHash(hash: Hash) {
    forall s :: |hash(s)| == HASH_LENGTH && IsHex(hash(s))
  }

  ghost predicate InjectiveOn(hash: Hash, seen: iset<string>) {
    forall a, b :: a in seen && b in seen && hash(a) == hash(b) ==> a == b
  }

  // ---- The walk ----

  predicate IsText(field: Field) {
    field.key == CSS_KEY && field.value.Str?
  }

  /** Every stylesheet text reachable in the document, rewritten. */
  function Walk(doc: Json, f: string -> string): Json
    decreases doc
  {
    match doc
    case Arr(items) => Arr(seq(|items|, i requires 0 <= i < |items| => Walk(items[i], f)))
    case Obj(fields) => Obj(seq(|fields|, i requires 0 <= i < |fields| => WalkField(fields[i], f)))
    case _ => doc
  }

  function WalkField(field: Field, f: string -> string): Field
    decreases field
  {
    if IsText(field) then Field(field.key, Str(f(field.value.s))) else Field(field.key, Walk(field.value, f))
  }

  predicate HasText(doc: Json, t: string)
    decreases doc
  {
    match doc
    case Arr(items) => exists i :: 0 <= i < |items| && HasText(items[i], t)
    case Obj(fields) => exists i :: 0 <= i < |fields| && FieldHasText(fields[i], t)
    case _ => false
  }

  predicate FieldHasText(field: Field, t: string)
    decreases field
  {
    if IsText(field) then field.value.s == t else HasText(field.value, t)
  }

  /** Two rewritings of a document agree exactly when they agree on its texts. */
  lemma {:induction false} WalkAgrees(doc: Json, f: string -> string, g: string -> string)
    ensures Walk(doc, f) == Walk(doc, g) <==> forall t :: HasText(doc, t) ==> f(t) == g(t)
    decreases doc
  {
    match doc
    case Arr(items) =>
      forall i | 0 <= i < |items|
        ensures Walk(items[i], f) == Walk(items[i], g) <==> forall t :: HasText(items[i], t) ==> f(t) == g(t)
      {
        WalkAgrees(items[i], f, g);
      }
      if Walk(doc, f) == Walk(doc, g) {
        forall i | 0 <= i < |items| ensures Walk(items[i], f) == Walk(items[i], g) {
          assert Walk(doc, f).items[i] == Walk(doc, g).items[i];
        }
      }
    case Obj(fields) =>
      forall i | 0 <= i < |fields|
        ensures WalkField(fields[i], f) == WalkField(fields[i], g) <==> forall t :: FieldHasText(fields[i], t) ==> f(t) == g(t)
      {
        if IsText(fields[i]) {
          assert FieldHasText(fields[i], fields[i].value.s);
        } else {
          WalkAgrees(fields[i].value, f, g);
        }
      }
      if Walk(doc, f) == Walk(doc, g) {
        forall i | 0 <= i < |fields| ensures WalkField(fields[i], f) == WalkField(fields[i], g) {
          assert Walk(doc, f).fields[i] == Walk(doc, g).fields[i];
        }
      }
    case _ =>
  }

  lemma {:induction false} WalkNothing(doc: Json)
    ensures Walk(doc, t => t) == doc
    decreases doc
  {
    match doc
    case Arr(items) =>
      forall i | 0 <= i < |items| ensures Walk(items[i], t => t) == items[i] { WalkNothing(items[i]); }
    case Obj(fields) =>
      forall i | 0 <= i < |fields| ensures WalkField(fields[i], t => t) == fields[i] {
        if !IsText(fields[i]) { WalkNothing(fields[i].value); }
      }
    case _ =>
  }

  lemma {:induction false} WalkTwice(doc: Json, f: string -> string, g: string -> string)
    ensures Walk(Walk(doc, f), g) == Walk(doc, t => g(f(t)))
    decreases doc
  {
    var h := (t: string) => g(f(t));
    match doc
    case Arr(items) =>
      forall i | 0 <= i < |items| ensures Walk(Walk(items[i], f), g) == Walk(items[i], h) { WalkTwice(items[i], f, g); }
    case Obj(fields) =>
      forall i | 0 <= i < |fields| ensures WalkField(WalkField(fields[i], f), g) == WalkField(fields[i], h) {
        if !IsText(fields[i]) {
          WalkTwice(fields[i].value, f, g);
          StrStays(fields[i].value, f);
        }
      }
    case _ =>
  }

  lemma StrStays(doc: Json, f: string -> string)
    ensures Walk(doc, f).Str? <==> doc.Str?
  {}

  lemma {:induction false} TextsAfter(doc: Json, f: string -> string, u: string)
    ensures HasText(Walk(doc, f), u) <==> exists t :: HasText(doc, t) && f(t) == u
    decreases doc
  {
    var after := Walk(doc, f);
    match doc
    case Arr(items) =>
      forall i | 0 <= i < |items| ensures HasText(after.items[i], u) <==> exists t :: HasText(items[i], t) && f(t) == u {
        TextsAfter(items[i], f, u);
      }
    case Obj(fields) =>
      forall i | 0 <= i < |fields|
        ensures FieldHasText(after.fields[i], u) <==> exists t :: FieldHasText(fields[i], t) && f(t) == u
      {
        FieldTextsAfter(fields[i], f, u);
      }
    case _ =>
  }

  lemma {:induction false} FieldTextsAfter(field: Field, f: string -> string, u: string)
    ensures FieldHasText(WalkField(field, f), u) <==> exists t :: FieldHasText(field, t) && f(t) == u
    decreases field
  {
    if IsText(field) {
      assert FieldHasText(field, field.value.s);
    } else {
      StrStays(field.value, f);
      TextsAfter(field.value, f, u);
      hide Walk, HasText;
      assert !IsText(WalkField(field, f));
      assert forall t :: FieldHasText(field, t) <==> HasText(field.value, t);
    }
  }

  // ---- References ----

  predicate HasPrefix(s: string, prefix: string) {
    |s| >= |prefix| && s[..|prefix|] == prefix
  }

  /** The dashboard's shape test: length and prefix. */
  predicate RefShaped(t: string) {
    |t| == |REF_PREFIX| + HASH_LENGTH && HasPrefix(t, REF_PREFIX)
  }

  /** The server also insists on hex. */
  predicate IsRef(t: string) {
    RefShaped(t) && IsHex(t[|REF_PREFIX|..])
  }

  function RefHash(t: string): string
    requires RefShaped(t)
  {
    t[|REF_PREFIX|..]
  }

  /** Large stylesheets are replaced; anything that starts like a reference is not. */
  predicate Replaced(css: string) {
    |css| >= MIN_BYTES && !HasPrefix(css, REF_PREFIX)
  }

  function Shrink(hash: Hash): string -> string {
    css => if Replaced(css) then REF_PREFIX + hash(css) else css
  }

  function Expand(assets: map<string, string>): string -> string {
    t => if IsRef(t) && RefHash(t) in assets then assets[RefHash(t)] else t
  }

  function Dedupe(doc: Json, hash: Hash): Json {
    Walk(doc, Shrink(hash))
  }

  ghost predicate Resolves(doc: Json, assets: map<string, string>) {
    forall t :: HasText(doc, t) && IsRef(t) ==> RefHash(t) in assets
  }

  /** A reference that cannot be resolved is an error. */
  ghost function Rehydrate(doc: Json, assets: map<string, string>): Option<Json> {
    if Resolves(doc, assets) then Some(Walk(doc, Expand(assets))) else None
  }

  lemma RefOfHash(hash: Hash, css: string)
    requires HexHash(hash)
    ensures IsRef(REF_PREFIX + hash(css)) && RefHash(REF_PREFIX + hash(css)) == hash(css)
  {
    var r := REF_PREFIX + hash(css);
    assert r[..|REF_PREFIX|] == REF_PREFIX && r[|REF_PREFIX|..] == hash(css);
    assert |hash(css)| == HASH_LENGTH && IsHex(hash(css));
  }

  // ---- What is replaced, in so many characters ----

  /** What a stylesheet text becomes. */
  function Deduped(t: string, hash: Hash): string {
    if |t| >= 16_384 && !("@traceux-css-ref:" <= t) then "@traceux-css-ref:" + hash(t) else t
  }

  /** A document has the texts under its `_cssText` keys, wherever they are. */
  lemma TextsAre(doc: Json, t: string)
    ensures HasText(doc, t) <==>
              match doc
              case Arr(items) => exists i :: 0 <= i < |items| && HasText(items[i], t)
              case Obj(fields) => exists i :: 0 <= i < |fields| && (fields[i] == Field("_cssText", Str(t)) || HasText(fields[i].value, t))
              case _ => false
  {
    if doc.Obj? {
      forall i | 0 <= i < |doc.fields|
        ensures FieldHasText(doc.fields[i], t) <==> doc.fields[i] == Field("_cssText", Str(t)) || HasText(doc.fields[i].value, t)
      {}
    }
  }

  /** Deduping changes large stylesheets under `_cssText` and nothing else. */
  lemma DedupedShape(doc: Json, hash: Hash)
    ensures var out := Dedupe(doc, hash);
            match doc
            case Arr(items) =>
              && out.Arr? && |out.items| == |items|
              && forall i :: 0 <= i < |items| ==> out.items[i] == Dedupe(items[i], hash)
            case Obj(fields) =>
              && out.Obj? && |out.fields| == |fields|
              && forall i :: 0 <= i < |fields| ==>
                   out.fields[i] == Field(fields[i].key,
                                          if fields[i].key == "_cssText" && fields[i].value.Str? then Str(Deduped(fields[i].value.s, hash))
                                          else Dedupe(fields[i].value, hash))
            case _ => out == doc
  {
    LargeIs(hash);
    if doc.Obj? {
      forall i | 0 <= i < |doc.fields|
        ensures WalkField(doc.fields[i], Shrink(hash)) ==
                  Field(doc.fields[i].key,
                        if doc.fields[i].key == "_cssText" && doc.fields[i].value.Str? then Str(Deduped(doc.fields[i].value.s, hash))
                        else Dedupe(doc.fields[i].value, hash))
      {}
    }
  }

  lemma LargeIs(hash: Hash)
    ensures forall t :: Shrink(hash)(t) == Deduped(t, hash)
    ensures forall t :: Replaced(t) <==> |t| >= 16_384 && !("@traceux-css-ref:" <= t)
  {
    forall t: string ensures HasPrefix(t, REF_PREFIX) <==> "@traceux-css-ref:" <= t {}
  }

  lemma RefsStart(hash: Hash)
    requires HexHash(hash)
    ensures forall t :: |"@traceux-css-ref:" + hash(t)| == 81 && "@traceux-css-ref:" <= "@traceux-css-ref:" + hash(t)
  {}

  /** Every large stylesheet becomes its reference, every other text stays, and no
      large one is left but what starts like a reference. */
  lemma SheetsReplaced(doc: Json, hash: Hash)
    requires HexHash(hash)
    ensures forall t :: HasText(doc, t) && |t| >= 16_384 && !("@traceux-css-ref:" <= t) ==> HasText(Dedupe(doc, hash), "@traceux-css-ref:" + hash(t))
    ensures forall t :: HasText(doc, t) && (|t| < 16_384 || "@traceux-css-ref:" <= t) ==> HasText(Dedupe(doc, hash), t)
    ensures forall u :: HasText(Dedupe(doc, hash), u) ==> |u| < 16_384 || "@traceux-css-ref:" <= u
    ensures forall u :: HasText(Dedupe(doc, hash), u) ==> exists t :: HasText(doc, t) && u == Deduped(t, hash)
  {
    hide HasText, Replaced, Walk, Shrink, HexHash;
    LargeIs(hash);
    RefsStart(hash);
    forall t | HasText(doc, t) ensures HasText(Dedupe(doc, hash), Deduped(t, hash)) { TextsAfter(doc, Shrink(hash), Deduped(t, hash)); }
    forall u | HasText(Dedupe(doc, hash), u) ensures exists t :: HasText(doc, t) && u == Deduped(t, hash) {
      TextsAfter(doc, Shrink(hash), u);
      var t :| HasText(doc, t) && Shrink(hash)(t) == u;
      assert u == Deduped(t, hash);
    }
  }

  /** A reference is the prefix with 64 hex digits. */
  lemma RefsAre(t: string)
    ensures IsRef(t) <==>
              && |t| == 81 && "@traceux-css-ref:" <= t
              && forall i :: 17 <= i < 81 ==> '0' <= t[i] <= '9' || 'a' <= t[i] <= 'f' || 'A' <= t[i] <= 'F'
    ensures RefShaped(t) <==> |t| == 81 && "@traceux-css-ref:" <= t
    ensures RefShaped(t) ==> t == "@traceux-css-ref:" + RefHash(t)
  {
    if RefShaped(t) { assert forall i :: 17 <= i < 81 ==> t[i] == t[17..][i - 17]; }
  }

  // ---- Round trip ----

  /** The store holds every stylesheet that deduping this document replaces. */
  ghost predicate Holds(assets: map<string, string>, doc: Json, hash: Hash) {
    forall css :: HasText(doc, css) && Replaced(css) ==> hash(css) in assets && assets[hash(css)] == css
  }

  /** Only large stylesheets are stored. */
  ghost predicate AllLarge(assets: map<string, string>) {
    forall h :: h in assets ==> Replaced(assets[h])
  }

  /** Dedupe, then expand: the document comes back exactly when no stylesheet text
      in it already looked like a reference. */
  lemma RoundTrip(doc: Json, hash: Hash, assets: map<string, string>)
    requires HexHash(hash) && Holds(assets, doc, hash) && AllLarge(assets)
    ensures Rehydrate(Dedupe(doc, hash), assets) == Some(doc) <==> forall t :: HasText(doc, t) ==> !IsRef(t)
  {
    hide HasText, Walk, Dedupe, Resolves, Shrink, Expand, Replaced, HexHash, AllLarge;
    WalkBack(doc, hash, assets);
    forall t | HasText(doc, t) ensures Expand(assets)(Shrink(hash)(t)) == t <==> !(IsRef(t) && RefHash(t) in assets) {
      HeldIfLarge(doc, hash, assets, t);
      TextRoundTrip(t, hash, assets);
    }
    if forall t :: HasText(doc, t) ==> !IsRef(t) {
      DedupeResolves(doc, hash, assets);
    } else if Resolves(Dedupe(doc, hash), assets) {
      var t :| HasText(doc, t) && IsRef(t);
      RefChanges(doc, hash, assets, t);
    }
  }

  lemma HeldIfLarge(doc: Json, hash: Hash, assets: map<string, string>, t: string)
    requires Holds(assets, doc, hash) && HasText(doc, t)
    ensures Replaced(t) ==> hash(t) in assets && assets[hash(t)] == t
  {}

  lemma WalkBack(doc: Json, hash: Hash, assets: map<string, string>)
    ensures Walk(Dedupe(doc, hash), Expand(assets)) == doc <==> forall t :: HasText(doc, t) ==> Expand(assets)(Shrink(hash)(t)) == t
  {
    hide HasText, Walk;
    var both := t => Expand(assets)(Shrink(hash)(t));
    WalkTwice(doc, Shrink(hash), Expand(assets));
    WalkNothing(doc);
    WalkAgrees(doc, both, t => t);
  }

  /** A reference of the document itself is expanded to something else. */
  lemma RefChanges(doc: Json, hash: Hash, assets: map<string, string>, t: string)
    requires HexHash(hash) && AllLarge(assets) && Resolves(Dedupe(doc, hash), assets) && HasText(doc, t) && IsRef(t)
    ensures RefHash(t) in assets && Expand(assets)(Shrink(hash)(t)) != t
  {
    TextRoundTrip(t, hash, assets);
    TextsAfter(doc, Shrink(hash), t);
    assert Shrink(hash)(t) == t;
  }

  lemma TextRoundTrip(t: string, hash: Hash, assets: map<string, string>)
    requires HexHash(hash) && AllLarge(assets)
    requires Replaced(t) ==> hash(t) in assets && assets[hash(t)] == t
    ensures Expand(assets)(Shrink(hash)(t)) == t <==> !(IsRef(t) && RefHash(t) in assets)
  {
    RefOfHash(hash, t);
  }

  lemma DedupeResolves(doc: Json, hash: Hash, assets: map<string, string>)
    requires HexHash(hash) && Holds(assets, doc, hash)
    requires forall t :: HasText(doc, t) ==> !IsRef(t)
    ensures Resolves(Dedupe(doc, hash), assets)
  {
    forall u | HasText(Dedupe(doc, hash), u) && IsRef(u) ensures RefHash(u) in assets {
      TextsAfter(doc, Shrink(hash), u);
      var t :| HasText(doc, t) && Shrink(hash)(t) == u;
      RefOfHash(hash, t);
    }
  }

  /** Exactly what a deduped document needs: its replaced stylesheets and whatever
      its own reference-shaped texts name. */
  lemma NeedsExactly(doc: Json, hash: Hash, assets: map<string, string>)
    requires HexHash(hash)
    ensures Resolves(Dedupe(doc, hash), assets) <==>
              && (forall css :: HasText(doc, css) && Replaced(css) ==> hash(css) in assets)
              && (forall t :: HasText(doc, t) && IsRef(t) ==> RefHash(t) in assets)
  {
    hide HasText, Walk;
    var shrink := Shrink(hash);
    var deduped := Dedupe(doc, hash);
    forall t ensures IsRef(shrink(t)) <==> Replaced(t) || IsRef(t) { RefOfHash(hash, t); }
    forall t | HasText(doc, t) ensures HasText(deduped, shrink(t)) { TextsAfter(doc, shrink, shrink(t)); }
    if Resolves(deduped, assets) {
      forall css | HasText(doc, css) && Replaced(css) ensures hash(css) in assets {
        RefOfHash(hash, css);
        assert HasText(deduped, shrink(css));
      }
      forall t | HasText(doc, t) && IsRef(t) ensures RefHash(t) in assets {
        assert shrink(t) == t && HasText(deduped, shrink(t));
      }
    }
    if (forall css :: HasText(doc, css) && Replaced(css) ==> hash(css) in assets)
       && forall t :: HasText(doc, t) && IsRef(t) ==> RefHash(t) in assets
    {
      forall u | HasText(deduped, u) && IsRef(u) ensures RefHash(u) in assets {
        TextsAfter(doc, shrink, u);
        var t :| HasText(doc, t) && shrink(t) == u;
        RefOfHash(hash, t);
      }
    }
  }

  /** Deduping twice is deduping once, and the second time replaces nothing. */
  lemma DedupeIdempotent(doc: Json, hash: Hash)
    requires HexHash(hash)
    ensures Dedupe(Dedupe(doc, hash), hash) == Dedupe(doc, hash)
    ensures forall t :: HasText(Dedupe(doc, hash), t) ==> !Replaced(t)
  {
    var shrink := Shrink(hash);
    var twice := t => shrink(shrink(t));
    forall t ensures twice(t) == shrink(t) && !Replaced(shrink(t)) { RefOfHash(hash, t); }
    WalkTwice(doc, shrink, shrink);
    WalkAgrees(doc, twice, shrink);
    forall u | HasText(Dedupe(doc, hash), u) ensures !Replaced(u) { TextsAfter(doc, shrink, u); }
  }

  // ---- The dashboard ----

  function Substitute(assets: map<string, string>): string -> string {
    t => if RefShaped(t) && RefHash(t) in assets then assets[RefHash(t)] else t
  }

  ghost predicate ClientResolves(doc: Json, assets: map<string, string>) {
    forall t :: HasText(doc, t) && RefShaped(t) ==> RefHash(t) in assets
  }

  /** Collect the references, fetch each, substitute; any failure is an error. */
  ghost function ClientRehydrate(doc: Json, assets: map<string, string>): Option<Json> {
    if ClientResolves(doc, assets) then Some(Walk(doc, Substitute(assets))) else None
  }

  /** Hashes are what assets are stored under. */
  ghost predicate HexKeys(assets: map<string, string>) {
    forall h :: h in assets ==> IsHex(h)
  }

  /** The dashboard expands a document as the server does, except that it also
      takes a non-hex text of the right shape for a reference and then fails. */
  lemma ClientIsServer(doc: Json, assets: map<string, string>)
    requires HexKeys(assets)
    ensures ClientRehydrate(doc, assets) == Rehydrate(doc, assets) <==>
              (forall t :: HasText(doc, t) && RefShaped(t) ==> IsRef(t)) || Rehydrate(doc, assets).None?
  {
    if forall t :: HasText(doc, t) && RefShaped(t) ==> IsRef(t) {
      WalkAgrees(doc, Substitute(assets), Expand(assets));
    } else {
      var t :| HasText(doc, t) && RefShaped(t) && !IsRef(t);
      assert RefHash(t) !in assets;
    }
  }

  /** What the dashboard shows of a document the server deduped is the document,
      when nothing in it looked like a reference. */
  lemma ClientRoundTrip(doc: Json, hash: Hash, assets: map<string, string>)
    requires HexHash(hash) && Holds(assets, doc, hash) && AllLarge(assets) && HexKeys(assets)
    ensures ClientRehydrate(Dedupe(doc, hash), assets) == Some(doc) <==> forall t :: HasText(doc, t) ==> !RefShaped(t)
  {
    RoundTrip(doc, hash, assets);
    ClientIsServer(Dedupe(doc, hash), assets);
    var deduped := Dedupe(doc, hash);
    forall u | HasText(deduped, u) && RefShaped(u) && !IsRef(u) ensures HasText(doc, u) {
      TextsAfter(doc, Shrink(hash), u);
      var t :| HasText(doc, t) && Shrink(hash)(t) == u;
      RefOfHash(hash, t);
    }
    forall u | HasText(doc, u) && RefShaped(u) ensures HasText(deduped, u) {
      assert Shrink(hash)(u) == u;
      TextsAfter(doc, Shrink(hash), u);
    }
  }
}
