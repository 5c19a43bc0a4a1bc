/** What the normalisation of tool results promises. */
module ChatToolsFacts {
  import opened Wrappers
  import opened Js
  import opened Json
  import opened ChatTools

  /** Pushing elements none of which is `null` or `undefined` never throws and appends one
      record per element, in order. */
  lemma {:induction false} PushRecordsAll(acc: seq<NftRecord>, elems: seq<Json>, shape: Shape)
    requires forall i :: 0 <= i < |elems| ==> !IsNullish(elems[i])
    ensures var r := PushRecords(acc, elems, shape);
      && !r.threw
      && |r.items| == |acc| + |elems|
      && r.items[..|acc|] == acc
      && forall i :: 0 <= i < |elems| ==> Some(r.items[|acc| + i]) == RecordOf(elems[i], shape)
    decreases |elems|
  {
    if elems != [] {
      var rec := RecordOf(elems[0], shape).value;
      PushRecordsAll(acc + [rec], elems[1..], shape);
      var r := PushRecords(acc, elems, shape);
      assert r == PushRecords(acc + [rec], elems[1..], shape);
      forall i | 0 <= i < |elems| ensures Some(r.items[|acc| + i]) == RecordOf(elems[i], shape) {
        if i > 0 {
          assert elems[1..][i - 1] == elems[i];
        }
      }
    }
  }

  /** A `results` array without `null` entries contributes exactly one record per entry,
      in order, right after what was accumulated before. */
  lemma ResultsOnePerElement(acc: seq<NftRecord>, parsed: Json, xs: seq<Json>)
    requires parsed.Obj? && Field(parsed, "results") == Arr(xs)
    requires forall i :: 0 <= i < |xs| ==> !IsNullish(xs[i])
    ensures var r := Normalise(acc, parsed);
      && |r| >= |acc| + |xs| && r[..|acc|] == acc
      && forall i :: 0 <= i < |xs| ==> Some(r[|acc| + i]) == ItemRecord(xs[i], ItemShape)
  {
    PushRecordsAll(acc, xs, ItemShape);
    var s1 := PushRecords(acc, xs, ItemShape);
    var r := Normalise(acc, parsed);
    assert s1.items <= r;
  }

  /** `{results: [{id: "7", name: "Foo"}]}` yields exactly one record, identifier "7" and
      name "Foo". */
  lemma ResultsExample()
    ensures Normalise([], Obj(map["results" := Arr([Obj(map["id" := Str("7"), "name" := Str("Foo")])])]))
         == [NftRecord(Str("7"), Str("Foo"), Undefined, Undefined, Undefined, Undefined)]
  {
    var nft := Obj(map["id" := Str("7"), "name" := Str("Foo")]);
    var parsed := Obj(map["results" := Arr([nft])]);
    var rec := NftRecord(Str("7"), Str("Foo"), Undefined, Undefined, Undefined, Undefined);
    assert "name" in nft.fields && "imageUrl" !in nft.fields && "image_url" !in nft.fields;
    assert "collection" !in nft.fields && "collectionSlug" !in nft.fields && "metadata" !in nft.fields;
    assert ItemRecord(nft, ItemShape) == Some(rec);
    assert [] + [rec] == [rec] && [nft][1..] == [];
    assert PushRecords([], [nft], ItemShape) == Scan([rec], false);
  }

  /** A record without a name is named after its id: `{results: [{id: "7"}]}` gives "#7". */
  lemma NameFallbackExample()
    ensures Normalise([], Obj(map["results" := Arr([Obj(map["id" := Str("7")])])]))
         == [NftRecord(Str("7"), Str("#7"), Undefined, Undefined, Undefined, Undefined)]
  {
    var nft := Obj(map["id" := Str("7")]);
    var parsed := Obj(map["results" := Arr([nft])]);
    var rec := NftRecord(Str("7"), Str("#7"), Undefined, Undefined, Undefined, Undefined);
    assert "name" !in nft.fields && "imageUrl" !in nft.fields && "image_url" !in nft.fields;
    assert "collection" !in nft.fields && "collectionSlug" !in nft.fields && "metadata" !in nft.fields;
    assert Display(Str("7")) == "7" && "#" + "7" == "#7";
    assert Field(Field(nft, "metadata"), "name") == Undefined;
    assert ItemRecord(nft, ItemShape) == Some(rec);
    assert [] + [rec] == [rec] && [nft][1..] == [];
    assert PushRecords([], [nft], ItemShape) == Scan([rec], false);
  }

  /** Removing one key leaves every other key's value as it was. */
  lemma FieldKept(m: map<string, Json>, gone: string, key: string)
    requires key != gone
    ensures Field(Obj(m - {gone}), key) == Field(Obj(m), key)
  {
  }

  /** Two parsed objects that agree on what each branch reads normalise alike. */
  lemma NormaliseFromBranches(acc: seq<NftRecord>, p: Json, q: Json)
    requires p.Obj? && q.Obj?
    requires Field(p, "results") == Field(q, "results")
    requires Field(p, "trendingCollections") == Field(q, "trendingCollections")
    requires Field(p, "itemsByQuery") == Field(q, "itemsByQuery")
    requires forall x :: ItemsBranch(x, p) == ItemsBranch(x, q)
    requires forall x :: CollectionsBranch(x, p) == CollectionsBranch(x, q)
    ensures Normalise(acc, p) == Normalise(acc, q)
  {
  }

  /** In the items branch `items` takes precedence: when it is truthy, `nfts` is not read. */
  lemma ItemsOverNfts(acc: seq<NftRecord>, m: map<string, Json>)
    requires Truthy(Field(Obj(m), "items"))
    ensures Normalise(acc, Obj(m)) == Normalise(acc, Obj(m - {"nfts"}))
  {
    var p, q := Obj(m), Obj(m - {"nfts"});
    FieldKept(m, "nfts", "results");
    FieldKept(m, "nfts", "items");
    FieldKept(m, "nfts", "collections");
    FieldKept(m, "nfts", "trendingCollections");
    FieldKept(m, "nfts", "itemsByQuery");
    forall x ensures ItemsBranch(x, p) == ItemsBranch(x, q) {
      assert Or(Field(p, "items"), Or(Field(p, "nfts"), Arr([]))) == Field(p, "items");
      assert Or(Field(q, "items"), Or(Field(q, "nfts"), Arr([]))) == Field(p, "items");
    }
    NormaliseFromBranches(acc, p, q);
  }

  /** The `collections` branch applies only when `results` is absent (falsy). */
  lemma CollectionsNeedNoResults(acc: seq<NftRecord>, m: map<string, Json>)
    requires Truthy(Field(Obj(m), "results"))
    ensures Normalise(acc, Obj(m)) == Normalise(acc, Obj(m - {"collections"}))
  {
    var p, q := Obj(m), Obj(m - {"collections"});
    FieldKept(m, "collections", "results");
    FieldKept(m, "collections", "items");
    FieldKept(m, "collections", "nfts");
    FieldKept(m, "collections", "trendingCollections");
    FieldKept(m, "collections", "itemsByQuery");
    NormaliseFromBranches(acc, p, q);
  }


  /** When `collections` is the only shape present, it adds at most one record, and only when
      nothing has been accumulated yet. */
  lemma CollectionsAddAtMostOne(acc: seq<NftRecord>, m: map<string, Json>)
    requires !Truthy(Field(Obj(m), "results"))
    requires !Truthy(Field(Obj(m), "items")) && !Truthy(Field(Obj(m), "nfts"))
    requires !Field(Obj(m), "trendingCollections").Arr? && !Field(Obj(m), "itemsByQuery").Arr?
    ensures |Normalise(acc, Obj(m))| <= |acc| + 1
    ensures acc != [] ==> Normalise(acc, Obj(m)) == acc
  {
    var p := Obj(m);
    var s3 := CollectionsBranch(acc, p);
    assert Normalise(acc, p) == s3.items;
  }

  /** Tool text that does not parse is skipped without error: if no text entry parses, the
      accumulated records are unchanged. */
  lemma {:induction false} UnparseableSkipped(acc: seq<NftRecord>, content: seq<ContentItem>, parse: string -> Option<Json>)
    requires forall i :: 0 <= i < |content| && content[i].TextItem? ==> parse(content[i].text).None?
    ensures ScanContent(acc, content, parse) == acc
    decreases |content|
  {
    if content != [] {
      UnparseableSkipped(acc, content[1..], parse);
    }
  }
}
