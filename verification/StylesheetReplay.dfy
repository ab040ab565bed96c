/** Putting stylesheets back: the server's expanding walk, and the dashboard's
    collect, load and substitute with its cache. */
module StylesheetReplay {
  import opened Rows
  import opened Stylesheets

  /** RehydrateCSS's walk; a missing stylesheet is noted and left alone. */
  method ExpandDoc(doc: Json, assets: map<string, string>) returns (out: Json, missing: bool)
    ensures out == Walk(doc, Expand(assets))
    ensures missing <==> !Resolves(doc, assets)
    decreases doc
  {
    missing := false;
    match doc
    case Arr(items) =>
      var walked := items;
      var i := 0;
      while i < |items|
        invariant 0 <= i <= |items| == |walked|
        invariant forall j :: 0 <= j < i ==> walked[j] == Walk(items[j], Expand(assets))
        invariant forall j :: i <= j < |items| ==> walked[j] == items[j]
        invariant missing <==> exists j :: 0 <= j < i && !Resolves(items[j], assets)
      {
        var next, lost := ExpandDoc(walked[i], assets);
        walked := walked[i := next];
        missing := missing || lost;
        i := i + 1;
      }
      out := Arr(walked);
      assert walked == Walk(doc, Expand(assets)).items;
      ResolvesItems(items, assets);
    case Obj(fields) =>
      var walked := fields;
      var i := 0;
      while i < |fields|
        invariant 0 <= i <= |fields| == |walked|
        invariant forall j :: 0 <= j < i ==> walked[j] == WalkField(fields[j], Expand(assets))
        invariant forall j :: i <= j < |fields| ==> walked[j] == fields[j]
        invariant missing <==> exists j :: 0 <= j < i && !FieldResolves(fields[j], assets)
      {
        var next, lost := ExpandField(walked[i], assets);
        walked := walked[i := next];
        missing := missing || lost;
        i := i + 1;
      }
      out := Obj(walked);
      assert walked == Walk(doc, Expand(assets)).fields;
      ResolvesFields(fields, assets);
    case _ =>
      out := doc;
  }

  method ExpandField(field: Field, assets: map<string, string>) returns (out: Field, missing: bool)
    ensures out == WalkField(field, Expand(assets))
    ensures missing <==> !FieldResolves(field, assets)
    decreases field
  {
    out, missing := field, false;
    if IsText(field) {
      var t := field.value.s;
      if IsRef(t) {
        if RefHash(t) in assets {
          out := Field(field.key, Str(assets[RefHash(t)]));
        } else {
          missing := true;
        }
      }
      assert FieldHasText(field, t);
    } else {
      var next, lost := ExpandDoc(field.value, assets);
      out, missing := Field(field.key, next), lost;
      assert FieldResolves(field, assets) <==> Resolves(field.value, assets);
    }
  }

  ghost predicate FieldResolves(field: Field, assets: map<string, string>) {
    forall t :: FieldHasText(field, t) && IsRef(t) ==> RefHash(t) in assets
  }

  lemma ResolvesItems(items: seq<Json>, assets: map<string, string>)
    ensures Resolves(Arr(items), assets) <==> forall j :: 0 <= j < |items| ==> Resolves(items[j], assets)
  {
    forall j, t | 0 <= j < |items| && HasText(items[j], t) ensures HasText(Arr(items), t) {}
  }

  lemma ResolvesFields(fields: seq<Field>, assets: map<string, string>)
    ensures Resolves(Obj(fields), assets) <==> forall j :: 0 <= j < |fields| ==> FieldResolves(fields[j], assets)
  {
    forall j, t | 0 <= j < |fields| && FieldHasText(fields[j], t) ensures HasText(Obj(fields), t) {}
  }

  /** RehydrateCSS for one document. */
  method RehydrateCSS(doc: Json, assets: map<string, string>) returns (r: Option<Json>)
    ensures r == Rehydrate(doc, assets)
  {
    var out, missing := ExpandDoc(doc, assets);
    r := if missing then None else Some(out);
  }

  // ---- The dashboard ----

  ghost predicate Names(doc: Json, h: string) {
    exists t :: HasText(doc, t) && RefShaped(t) && RefHash(t) == h
  }

  ghost predicate FieldNames(field: Field, h: string) {
    exists t :: FieldHasText(field, t) && RefShaped(t) && RefHash(t) == h
  }

  /** collectCSSRefs: every hash referred to, added to those found so far. */
  method CollectCSSRefs(doc: Json, found: seq<string>) returns (all: seq<string>)
    ensures forall h :: h in all <==> h in found || Names(doc, h)
    decreases doc
  {
    all := found;
    match doc
    case Arr(items) =>
      var i := 0;
      while i < |items|
        invariant 0 <= i <= |items|
        invariant forall h :: h in all <==> h in found || exists j :: 0 <= j < i && Names(items[j], h)
      {
        all := CollectCSSRefs(items[i], all);
        i := i + 1;
      }
      forall h ensures Names(doc, h) <==> exists j :: 0 <= j < |items| && Names(items[j], h) { NamesItems(items, h); }
    case Obj(fields) =>
      var i := 0;
      while i < |fields|
        invariant 0 <= i <= |fields|
        invariant forall h :: h in all <==> h in found || exists j :: 0 <= j < i && FieldNames(fields[j], h)
      {
        var field := fields[i];
        if IsText(field) && RefShaped(field.value.s) {
          assert FieldHasText(field, field.value.s);
          if RefHash(field.value.s) !in all {
            all := all + [RefHash(field.value.s)];
          }
        } else {
          all := CollectCSSRefs(field.value, all);
        }
        i := i + 1;
      }
      forall h ensures Names(doc, h) <==> exists j :: 0 <= j < |fields| && FieldNames(fields[j], h) { NamesFields(fields, h); }
    case _ =>
  }

  lemma NamesItems(items: seq<Json>, h: string)
    ensures Names(Arr(items), h) <==> exists j :: 0 <= j < |items| && Names(items[j], h)
  {
    if j :| 0 <= j < |items| && Names(items[j], h) {
      var t :| HasText(items[j], t) && RefShaped(t) && RefHash(t) == h;
      assert HasText(Arr(items), t);
    }
  }

  lemma NamesFields(fields: seq<Field>, h: string)
    ensures Names(Obj(fields), h) <==> exists j :: 0 <= j < |fields| && FieldNames(fields[j], h)
  {
    if j :| 0 <= j < |fields| && FieldNames(fields[j], h) {
      var t :| FieldHasText(fields[j], t) && RefShaped(t) && RefHash(t) == h;
      assert HasText(Obj(fields), t);
    }
  }

  /** What a tab has fetched already, kept for its lifetime. */
  class Player {
    var cache: map<string, string>

    constructor ()
      ensures cache == map[]
    {
      cache := map[];
    }

    /** fetchCSSAsset: the cache answers first; failures are not remembered. */
    method Fetch(h: string, server: map<string, string>) returns (css: Option<string>)
      modifies this
      ensures css == if h in old(cache) then Some(old(cache)[h]) else if h in server then Some(server[h]) else None
      ensures cache == if css.Some? then old(cache)[h := css.value] else old(cache)
    {
      if h in cache {
        assert cache == cache[h := cache[h]];
        return Some(cache[h]);
      }
      if h !in server {
        return None;
      }
      cache := cache[h := server[h]];
      return Some(server[h]);
    }

    /** loadCSSAssets: all of them or a failure. */
    method LoadAssets(hashes: seq<string>, server: map<string, string>) returns (loaded: Option<map<string, string>>)
      modifies this
      ensures loaded.Some? <==> forall h :: h in hashes ==> h in server + old(cache)
      ensures loaded.Some? ==> loaded.value == map h | h in hashes && h in server + old(cache) :: (server + old(cache))[h]
      ensures forall h :: h in cache ==> h in server + old(cache) && cache[h] == (server + old(cache))[h]
      ensures forall h :: h in old(cache) ==> h in cache
    {
      ghost var known := server + cache;
      var assets: map<string, string> := map[];
      var failed := false;
      var i := 0;
      while i < |hashes|
        invariant 0 <= i <= |hashes|
        invariant forall h :: h in old(cache) ==> h in cache
        invariant forall h :: h in cache ==> h in known && cache[h] == known[h]
        invariant failed <==> exists h :: h in hashes[..i] && h !in known
        invariant !failed ==> assets == map h | h in hashes[..i] && h in known :: known[h]
      {
        var h := hashes[i];
        assert hashes[..i + 1] == hashes[..i] + [h];
        var css := Fetch(h, server);
        if css.Some? {
          assets := assets[h := css.value];
        } else {
          failed := true;
        }
        i := i + 1;
      }
      assert hashes[..i] == hashes;
      loaded := if failed then None else Some(assets);
    }

    /** Collect, load, substitute. */
    method Show(doc: Json, server: map<string, string>) returns (r: Option<Json>)
      modifies this
      ensures r == ClientRehydrate(doc, server + old(cache))
      ensures server + cache == server + old(cache)
    {
      var hashes := CollectCSSRefs(doc, []);
      ghost var known := server + cache;
      var loaded := LoadAssets(hashes, server);
      assert loaded.Some? <==> ClientResolves(doc, known) by {
        if loaded.Some? {
          forall t | HasText(doc, t) && RefShaped(t) ensures RefHash(t) in known { assert Names(doc, RefHash(t)); }
        }
      }
      if loaded.None? {
        return None;
      }
      forall t | HasText(doc, t) ensures Substitute(loaded.value)(t) == Substitute(known)(t) {
        if RefShaped(t) { assert Names(doc, RefHash(t)); }
      }
      WalkAgrees(doc, Substitute(loaded.value), Substitute(known));
      r := Some(Walk(doc, Substitute(loaded.value)));
    }
  }
}
