/** The marketplace panel of the studio screen: loading a collection keeps the first NFT
    for each key, the search box resolves a query to a collection slug, and the trending
    view gathers two NFTs from each of a few collections. */
module OpenSeaPanel {
  import opened Wrappers
  import opened Js
  import opened Json
  import opened OpenSeaClient

  /** `nft.identifier || nft.collection || nft.name` */
  function NftKey(nft: Json): Json {
    Or(Or(Field(nft, "identifier"), Field(nft, "collection")), Field(nft, "name"))
  }

  function KeysOf(xs: seq<Json>): set<Json> {
    set k | 0 <= k < |xs| :: NftKey(xs[k])
  }

  lemma KeysOfSnoc(xs: seq<Json>, x: Json)
    ensures KeysOf(xs + [x]) == KeysOf(xs) + {NftKey(x)}
  {
    var ys := xs + [x];
    assert NftKey(ys[|xs|]) == NftKey(x);
    forall key | key in KeysOf(xs) ensures key in KeysOf(ys) {
      var k :| 0 <= k < |xs| && NftKey(xs[k]) == key;
      assert ys[k] == xs[k];
    }
  }

  /** Element i is the first with its key. */
  predicate IsFirst(xs: seq<Json>, i: nat)
    requires i < |xs|
  {
    NftKey(xs[i]) !in KeysOf(xs[..i])
  }

  /** The list filtered down to the first element of each key. */
  function Dedup(xs: seq<Json>): seq<Json> {
    if xs == [] then []
    else Dedup(xs[..|xs| - 1]) + (if IsFirst(xs, |xs| - 1) then [xs[|xs| - 1]] else [])
  }

  /** The Set-guarded filter of `loadNFTs`: one pass that drops an item whose key is already
      in the set of keys seen so far, and otherwise adds the key and keeps the item. */
  method Deduplicate(data: seq<Json>) returns (unique: seq<Json>)
    ensures unique == Dedup(data)
  {
    var seen: set<Json> := {};
    unique := [];
    var i := 0;
    while i < |data|
      invariant 0 <= i <= |data|
      invariant seen == KeysOf(data[..i])
      invariant unique == Dedup(data[..i])
    {
      var key := NftKey(data[i]);
      assert data[..i + 1][..i] == data[..i];
      assert data[..i + 1] == data[..i] + [data[i]];
      KeysOfSnoc(data[..i], data[i]);
      assert IsFirst(data[..i + 1], i) <==> key !in seen;
      assert Dedup(data[..i + 1]) == Dedup(data[..i]) + (if key !in seen then [data[i]] else []);
      if key !in seen {
        seen := seen + {key};
        unique := unique + [data[i]];
      }
      i := i + 1;
    }
    assert data[..|data|] == data;
  }

  /** De-duplication loses no key. */
  lemma {:induction false} DedupSameKeys(xs: seq<Json>)
    ensures KeysOf(Dedup(xs)) == KeysOf(xs)
  {
    if xs != [] {
      var init := xs[..|xs| - 1];
      var x := xs[|xs| - 1];
      assert xs == init + [x];
      DedupSameKeys(init);
      KeysOfSnoc(init, x);
      assert Dedup(xs) == Dedup(init) + (if IsFirst(xs, |xs| - 1) then [x] else []);
      if IsFirst(xs, |xs| - 1) {
        KeysOfSnoc(Dedup(init), x);
      } else {
        assert NftKey(x) in KeysOf(init);
        assert Dedup(xs) == Dedup(init);
        assert KeysOf(xs) == KeysOf(init);
      }
    }
  }

  /** No two kept NFTs share a key. */
  lemma {:induction false} DedupDistinctKeys(xs: seq<Json>)
    ensures forall a, b :: 0 <= a < b < |Dedup(xs)| ==> NftKey(Dedup(xs)[a]) != NftKey(Dedup(xs)[b])
  {
    if xs != [] {
      var init := xs[..|xs| - 1];
      var x := xs[|xs| - 1];
      DedupDistinctKeys(init);
      var d0 := Dedup(init);
      if IsFirst(xs, |xs| - 1) {
        DedupSameKeys(init);
        var d := d0 + [x];
        assert Dedup(xs) == d;
        forall a | 0 <= a < |d0| ensures NftKey(d[a]) != NftKey(x) {
          assert d[a] == d0[a];
          assert NftKey(d0[a]) in KeysOf(d0);
        }
      } else {
        assert Dedup(xs) == d0;
      }
    }
  }

  /** `a` is `b` with some elements left out, order kept. */
  predicate IsSubsequence(a: seq<Json>, b: seq<Json>)
    decreases |b|
  {
    if a == [] then true
    else if b == [] then false
    else
      || (a[|a| - 1] == b[|b| - 1] && IsSubsequence(a[..|a| - 1], b[..|b| - 1]))
      || IsSubsequence(a, b[..|b| - 1])
  }

  /** The kept NFTs appear in the input, in the input's order. */
  lemma {:induction false} DedupIsSubsequence(xs: seq<Json>)
    ensures IsSubsequence(Dedup(xs), xs)
  {
    if xs != [] {
      var init := xs[..|xs| - 1];
      DedupIsSubsequence(init);
      var d0 := Dedup(init);
      if IsFirst(xs, |xs| - 1) {
        var d := d0 + [xs[|xs| - 1]];
        assert d[..|d| - 1] == d0;
      } else if d0 != [] {
        assert Dedup(xs) == d0;
      }
    }
  }

  /** The first element of `xs` with key `key`. */
  function FirstWithKey(xs: seq<Json>, key: Json): Json
    requires key in KeysOf(xs)
  {
    var init := xs[..|xs| - 1];
    if key in KeysOf(init) then FirstWithKey(init, key)
    else
      assert xs == init + [xs[|xs| - 1]];
      KeysOfSnoc(init, xs[|xs| - 1]);
      xs[|xs| - 1]
  }

  /** For every key, the NFT kept is the first one in the input with that key. */
  lemma {:induction false} DedupKeepsFirst(xs: seq<Json>)
    ensures forall a :: 0 <= a < |Dedup(xs)| ==>
      NftKey(Dedup(xs)[a]) in KeysOf(xs) && Dedup(xs)[a] == FirstWithKey(xs, NftKey(Dedup(xs)[a]))
  {
    if xs != [] {
      var init := xs[..|xs| - 1];
      var x := xs[|xs| - 1];
      assert xs == init + [x];
      KeysOfSnoc(init, x);
      DedupKeepsFirst(init);
      var d0 := Dedup(init);
      var d := Dedup(xs);
      forall a | 0 <= a < |d|
        ensures NftKey(d[a]) in KeysOf(xs) && d[a] == FirstWithKey(xs, NftKey(d[a]))
      {
        if a < |d0| {
          assert d[a] == d0[a];
          assert NftKey(d0[a]) in KeysOf(init);
          assert FirstWithKey(xs, NftKey(d[a])) == FirstWithKey(init, NftKey(d[a]));
        } else {
          assert IsFirst(xs, |xs| - 1) && d == d0 + [x];
          assert d[a] == x;
          assert FirstWithKey(xs, NftKey(x)) == x;
        }
      }
    }
  }

  /** `POPULAR_PFP_COLLECTIONS.find(c => c.toLowerCase().includes(query))` */
  function FindContaining(cs: seq<string>, query: string): (r: Option<string>)
    ensures r.None? <==> forall k :: 0 <= k < |cs| ==> !Includes(ToLower(cs[k]), query)
    ensures r.Some? ==>
      exists k :: 0 <= k < |cs| && cs[k] == r.value && Includes(ToLower(cs[k]), query)
                  && forall j :: 0 <= j < k ==> !Includes(ToLower(cs[j]), query)
  {
    if cs == [] then None
    else if Includes(ToLower(cs[0]), query) then Some(cs[0])
    else
      var r := FindContaining(cs[1..], query);
      assert forall k :: 1 <= k < |cs| ==> cs[k] == cs[1..][k - 1];
      r
  }

  /** `slug` is the first of `cs` whose lower-case form contains `query`, or, when none
      does, `query` itself. */
  predicate FirstContainingOrQuery(cs: seq<string>, slug: string, query: string) {
    || (exists k :: 0 <= k < |cs| && slug == cs[k] && Includes(ToLower(cs[k]), query)
                    && forall j :: 0 <= j < k ==> !Includes(ToLower(cs[j]), query))
    || (slug == query && forall k :: 0 <= k < |cs| ==> !Includes(ToLower(cs[k]), query))
  }

  /** What `find` returns, or the query when it finds nothing, is the first containing
      element or the query. */
  lemma FoundOrQuery(cs: seq<string>, query: string)
    ensures FirstContainingOrQuery(cs, match FindContaining(cs, query) case Some(c) => c case None => query, query)
  {
  }

  /** `handleSearch`: the trimmed lower-case query selects the first popular slug that
      contains it, or else itself; a blank query selects nothing. */
  function SearchSelection(searchQuery: string): (r: Option<string>)
    ensures r.None? <==> AllSpace(ToLower(searchQuery))
    ensures r.Some? ==> FirstContainingOrQuery(PopularPfpCollections, r.value, Trim(ToLower(searchQuery)))
  {
    var query := Trim(ToLower(searchQuery));
    TrimEmptyIffBlank(ToLower(searchQuery));
    FoundOrQuery(PopularPfpCollections, query);
    if query == [] then None
    else match FindContaining(PopularPfpCollections, query)
      case Some(slug) => Some(slug)
      case None => Some(query)
  }


  /** `loadNFTs`: the collection's NFTs (20 at most from the mock fallback), de-duplicated.
      When the list is not an array, or one of its entries is nullish (reading its key
      throws), the error is caught and the panel keeps what it showed (`None`). */
  method LoadNfts(collection: string, respond: HttpResult) returns (shown: Option<seq<Json>>)
    ensures var data := GetNftsByCollection(collection, 20, respond);
      shown.Some? <==> data.Arr? && forall k :: 0 <= k < |data.elems| ==> !IsNullish(data.elems[k])
    ensures shown.Some? ==> shown.value == Dedup(GetNftsByCollection(collection, 20, respond).elems)
  {
    var data := GetNftsByCollection(collection, 20, respond);
    if !data.Arr? || exists k :: 0 <= k < |data.elems| && IsNullish(data.elems[k]) {
      return None;
    }
    var unique := Deduplicate(data.elems);
    return Some(unique);
  }

  /** What one trending source contributes: the loop stops on a nullish source (reading
      its fields throws, and so does the catch block's own log line), skips one whose name
      cannot be derived or whose NFT list is not an array, and otherwise adds its NFTs
      tagged with the source's slug and name. */
  datatype SourceOutcome = Abort | Skipped | Loaded(items: seq<Json>)

  /** `{ ...nft, collectionSlug: slug, collectionName: name }`. Only an object's own
      properties are carried over; the indexed characters a spread string would add are not
      modelled. */
  function Tag(nft: Json, slug: Json, name: Json): (r: Json)
    ensures r.Obj? && "collectionSlug" in r.fields && r.fields["collectionSlug"] == slug
    ensures "collectionName" in r.fields && r.fields["collectionName"] == name
  {
    var own := if nft.Obj? then nft.fields else map[];
    Obj(own["collectionSlug" := slug]["collectionName" := name])
  }

  /** The tagged copy has exactly the NFT's own fields plus the two tags, and every field
      other than the tags keeps its value. */
  lemma TagKeepsFields(nft: Json, slug: Json, name: Json)
    ensures Tag(nft, slug, name).fields.Keys
      == (if nft.Obj? then nft.fields.Keys else {}) + {"collectionSlug", "collectionName"}
    ensures nft.Obj? ==> forall k :: k in nft.fields && k != "collectionSlug" && k != "collectionName" ==>
      Tag(nft, slug, name).fields[k] == nft.fields[k]
  {
  }

  function TagAll(nfts: seq<Json>, slug: Json, name: Json): (r: seq<Json>)
    ensures |r| == |nfts|
    ensures forall k :: 0 <= k < |r| ==> r[k] == Tag(nfts[k], slug, name)
  {
    seq(|nfts|, k requires 0 <= k < |nfts| => Tag(nfts[k], slug, name))
  }

  /** `const slug = col.collection || col.identifier || col` and
      `const name = col.name || slug.split('-')[0]`, then two NFTs of that collection. */
  function FromSource(col: Json, respond: string -> HttpResult): SourceOutcome {
    if IsNullish(col) then Abort
    else
      var slug := Or(Or(Field(col, "collection"), Field(col, "identifier")), col);
      var name: Option<Json> :=
        if Truthy(Field(col, "name")) then Some(Field(col, "name"))
        else if slug.Str? then Some(Str(BeforeFirst(slug.s, '-')))
        else None;
      if name.None? then Skipped
      else
        var nfts := GetNftsByCollection(Display(slug), 2, respond(Display(slug)));
        if nfts.Arr? then Loaded(TagAll(nfts.elems, slug, name.value)) else Skipped
  }

  /** All the NFTs gathered from `cols`, or `None` when the loop stopped on a nullish
      source. */
  function Gathered(cols: seq<Json>, respond: string -> HttpResult): Option<seq<Json>> {
    if cols == [] then Some([])
    else
      match Gathered(cols[..|cols| - 1], respond)
      case None => None
      case Some(acc) =>
        match FromSource(cols[|cols| - 1], respond)
        case Abort => None
        case Skipped => Some(acc)
        case Loaded(items) => Some(acc + items)
  }

  /** The sources of the trending view: the first 2 (compact) or 3 trending collections,
      or, with none known, as many popular slugs wrapped as `{ collection, name }`. */
  function TrendingSources(trending: seq<Json>, compact: bool): (r: seq<Json>)
    ensures |r| <= if compact then 2 else 3
    ensures trending != [] ==> r == trending[..if |trending| < (if compact then 2 else 3) then |trending| else (if compact then 2 else 3)]
    ensures trending == [] ==> |r| == (if compact then 2 else 3)
    ensures trending == [] ==> forall k :: 0 <= k < |r| ==>
      r[k] == Obj(map["collection" := Str(PopularPfpCollections[k]),
                      "name" := Str(BeforeFirst(PopularPfpCollections[k], '-'))])
  {
    var n := if compact then 2 else 3;
    if |trending| > 0 then
      SlicePrefix(trending, n);
      Slice(trending, 0, n)
    else
      var slugs := Slice(PopularPfpCollections, 0, n);
      seq(|slugs|, k requires 0 <= k < |slugs| =>
        Obj(map["collection" := Str(slugs[k]), "name" := Str(BeforeFirst(slugs[k], '-'))]))
  }

  /** `loadTrendingNFTs`: `for (const col of sourceCollections)` pushing each source's
      tagged NFTs into `allNFTs`. */
  method LoadTrendingNfts(trending: seq<Json>, compact: bool, respond: string -> HttpResult)
    returns (all: Option<seq<Json>>)
    ensures all == Gathered(TrendingSources(trending, compact), respond)
  {
    var cols := TrendingSources(trending, compact);
    all := GatherSources(cols, respond);
  }

  /** The loop of `loadTrendingNFTs` over a given list of sources. */
  method GatherSources(cols: seq<Json>, respond: string -> HttpResult) returns (all: Option<seq<Json>>)
    ensures all == Gathered(cols, respond)
  {
    var acc: seq<Json> := [];
    for i := 0 to |cols|
      invariant Gathered(cols[..i], respond) == Some(acc)
    {
      var outcome := FromSource(cols[i], respond);
      GatheredNext(cols, respond, i);
      match outcome {
        case Abort =>
          AbortSticks(cols, respond, i + 1);
          assert cols[..|cols|] == cols;
          return None;
        case Skipped =>
        case Loaded(items) =>
          acc := acc + items;
      }
    }
    assert cols[..|cols|] == cols;
    return Some(acc);
  }

  /** One more source extends the gathered prefix by that source's outcome. */
  lemma GatheredNext(cols: seq<Json>, respond: string -> HttpResult, i: nat)
    requires i < |cols|
    ensures Gathered(cols[..i + 1], respond) ==
      match Gathered(cols[..i], respond)
      case None => None
      case Some(acc) =>
        match FromSource(cols[i], respond)
        case Abort => None
        case Skipped => Some(acc)
        case Loaded(items) => Some(acc + items)
  {
    assert cols[..i + 1][..i] == cols[..i];
  }

  /** Once the loop has stopped, later sources change nothing. */
  lemma AbortSticks(cols: seq<Json>, respond: string -> HttpResult, i: nat)
    requires i <= |cols| && Gathered(cols[..i], respond) == None
    ensures forall j :: i <= j <= |cols| ==> Gathered(cols[..j], respond) == None
  {
    forall j | i <= j <= |cols| ensures Gathered(cols[..j], respond) == None {
      AbortSticksAt(cols, respond, i, j);
    }
  }

  lemma {:induction false} AbortSticksAt(cols: seq<Json>, respond: string -> HttpResult, i: nat, j: nat)
    requires i <= j <= |cols| && Gathered(cols[..i], respond) == None
    ensures Gathered(cols[..j], respond) == None
    decreases j - i
  {
    if i < j {
      AbortSticksAt(cols, respond, i, j - 1);
      assert cols[..j][..j - 1] == cols[..j - 1];
    }
  }

  /** Every gathered NFT carries the slug and name of a source. */
  lemma {:induction false} GatheredAreTagged(cols: seq<Json>, respond: string -> HttpResult)
    ensures Gathered(cols, respond).Some? ==>
      forall k :: 0 <= k < |Gathered(cols, respond).value| ==>
        var x := Gathered(cols, respond).value[k];
        x.Obj? && "collectionSlug" in x.fields && "collectionName" in x.fields
  {
    if cols != [] {
      GatheredAreTagged(cols[..|cols| - 1], respond);
    }
  }

  /** With every request failing, each source contributes at most the two mock NFTs. */
  lemma {:induction false} OfflineGathersTwoEach(cols: seq<Json>, respond: string -> HttpResult)
    requires forall slug :: respond(slug).NetworkError?
    ensures Gathered(cols, respond).Some? ==> |Gathered(cols, respond).value| <= 2 * |cols|
  {
    if cols != [] {
      OfflineGathersTwoEach(cols[..|cols| - 1], respond);
      var col := cols[|cols| - 1];
      if !IsNullish(col) {
        var slug := Or(Or(Field(col, "collection"), Field(col, "identifier")), col);
        FallbackIsBounded(Display(slug), 2, respond(Display(slug)));
      }
    }
  }
}
