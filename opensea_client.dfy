/** The browser-side marketplace helpers. Each one asks the proxy (or, for the search,
    the marketplace) once and never throws: failures turn into mock data or an empty list.
    A request's outcome is an oracle value: the fetch rejected, or a response with its `ok`
    flag and the outcome of `response.json()`. */
module OpenSeaClient {
  import opened Wrappers
  import opened Js
  import opened Json

  datatype HttpResult =
    | NetworkError(message: string)
    | Response(ok: bool, body: Result<Json, string>)

  /** The popular profile-picture collections the views fall back on, in this order. */
  const PopularPfpCollections: seq<string> := [
    "boredapeyachtclub", "mutant-ape-yacht-club", "azuki", "doodles-official",
    "clonex", "moonbirds", "pudgypenguins", "cool-cats-nft"
  ]

  const MockFallbackSlug: string := "pudgypenguins"

  const MockCount: nat := 8

  /** One mock NFT `{ identifier, name, image_url }` of a collection drawn with colours
      `bg`/`fg` and labelled `caption` on its placeholder image. */
  function MockNft(n: nat, namePrefix: string, bg: string, fg: string, caption: string): Json {
    var id := NatToDecimal(n);
    Obj(map[
      "identifier" := Str(id),
      "name" := Str(namePrefix + " #" + id),
      "image_url" := Str("https://via.placeholder.com/200/" + bg + "/" + fg + "?text=" + caption + "+" + id)])
  }

  /** Mock NFTs #1 to #8 of one collection. */
  function MockList(namePrefix: string, bg: string, fg: string, caption: string): (xs: seq<Json>)
    ensures |xs| == MockCount
  {
    seq(MockCount, k requires 0 <= k < MockCount => MockNft(k + 1, namePrefix, bg, fg, caption))
  }

  /** `MOCK_NFTS`: eight placeholder NFTs for each of four collections. */
  function MockNfts(): map<string, seq<Json>> {
    map[
      "pudgypenguins" := MockList("Pudgy Penguin", "1a1a2e", "00d9a0", "Pudgy"),
      "boredapeyachtclub" := MockList("BAYC", "2a2a3e", "ffcc00", "BAYC"),
      "azuki" := MockList("Azuki", "3a1a2e", "ff6b6b", "Azuki"),
      "doodles-official" := MockList("Doodle", "1a3a2e", "66ff99", "Doodle")]
  }

  /** `(MOCK_NFTS[slug] || MOCK_NFTS['pudgypenguins']).slice(0, limit)`: an unknown slug gets
      the penguins, and a non-negative limit keeps the first min(limit, 8) of the list. */
  function GetMockNfts(slug: string, limit: int): (r: seq<Json>)
    ensures 0 <= limit && slug in MockNfts()
      ==> r == MockNfts()[slug][..if limit < MockCount then limit else MockCount]
    ensures 0 <= limit && slug !in MockNfts()
      ==> r == MockNfts()[MockFallbackSlug][..if limit < MockCount then limit else MockCount]
  {
    var data := if slug in MockNfts() then MockNfts()[slug] else MockNfts()[MockFallbackSlug];
    SlicePrefixIfNatural(data, limit);
    Slice(data, 0, limit)
  }

  /** Any slug without mock data of its own is served exactly the penguins' mock list. */
  lemma UnknownSlugGetsPenguins(slug: string, limit: int)
    requires slug !in MockNfts()
    ensures GetMockNfts(slug, limit) == GetMockNfts(MockFallbackSlug, limit)
  {
  }

  lemma SlicePrefixIfNatural(xs: seq<Json>, k: int)
    ensures 0 <= k ==> Slice(xs, 0, k) == xs[..if k < |xs| then k else |xs|]
  {
    if 0 <= k {
      SlicePrefix(xs, k);
    }
  }

  /** `getNFTsByCollection`: a successful response gives its `nfts` (or `[]` when that is
      falsy); a rejected fetch, a non-ok status, an unreadable body or a body without
      properties all give the mock fallback. */
  function GetNftsByCollection(slug: string, limit: int, respond: HttpResult): (r: Json)
    ensures respond.NetworkError? || !respond.ok || respond.body.Err? || IsNullish(respond.body.value)
      ==> r == Arr(GetMockNfts(slug, limit))
    ensures respond.Response? && respond.ok && respond.body.Ok? && !IsNullish(respond.body.value)
      ==> r == (if Truthy(Field(respond.body.value, "nfts")) then Field(respond.body.value, "nfts") else Arr([]))
  {
    match respond
    case NetworkError(_) => Arr(GetMockNfts(slug, limit))
    case Response(ok, body) =>
      if !ok then Arr(GetMockNfts(slug, limit))
      else match body
        case Err(_) => Arr(GetMockNfts(slug, limit))
        case Ok(data) =>
          match Member(data, "nfts")
          case None => Arr(GetMockNfts(slug, limit))
          case Some(nfts) => Or(nfts, Arr([]))
  }

  /** A rejected fetch, a non-ok status, an unreadable body or a nullish body falls back to
      the mock list: an array of at most eight NFTs, exactly min(limit, 8) of them for a
      non-negative limit. */
  lemma FallbackIsBounded(slug: string, limit: int, respond: HttpResult)
    requires respond.NetworkError? || !respond.ok || respond.body.Err? || IsNullish(respond.body.value)
    ensures GetNftsByCollection(slug, limit, respond).Arr?
    ensures |GetNftsByCollection(slug, limit, respond).elems| <= MockCount
    ensures 0 <= limit ==> |GetNftsByCollection(slug, limit, respond).elems| == if limit < MockCount then limit else MockCount
  {
  }

  /** `getTopCollections`: `data.collections` only when the request succeeded and both
      `success` and `collections` are truthy; every other outcome is `[]`. */
  function GetTopCollections(respond: HttpResult): (r: Json)
    ensures respond.NetworkError? || !respond.ok || respond.body.Err? ==> r == Arr([])
    ensures respond.Response? && respond.ok && respond.body.Ok?
      && Truthy(Field(respond.body.value, "success")) && Truthy(Field(respond.body.value, "collections"))
      ==> r == Field(respond.body.value, "collections")
    ensures r != Arr([]) ==>
      respond.Response? && respond.ok && respond.body.Ok?
      && Truthy(Field(respond.body.value, "success")) && Truthy(Field(respond.body.value, "collections"))
      && r == Field(respond.body.value, "collections")
  {
    match respond
    case NetworkError(_) => Arr([])
    case Response(ok, body) =>
      if !ok then Arr([])
      else match body
        case Err(_) => Arr([])
        case Ok(data) =>
          if IsNullish(data) then Arr([])
          else if Truthy(Field(data, "success")) && Truthy(Field(data, "collections")) then Field(data, "collections")
          else Arr([])
  }

  /** `searchCollections` as written: building the request URL reads the undeclared
      `BASE_URL`, which throws a ReferenceError before any request is made, and the catch
      block turns that into `[]`. */
  function SearchCollectionsAsWritten(query: string, limit: int, respond: HttpResult): (r: Json)
  {
    var url: Result<string, string> := Err("BASE_URL is not defined");
    match url
    case Err(_) => Arr([])
    case Ok(_) => SearchCollections(query, limit, respond)
  }

  /** `x?.toLowerCase().includes(q)`: nullish gives `undefined` (no match), a string is
      searched case-insensitively, anything else throws (`None`). */
  function FieldContains(x: Json, q: string): Option<bool> {
    if IsNullish(x) then Some(false)
    else if x.Str? then Some(Includes(ToLower(x.s), ToLower(q)))
    else None
  }

  /** The filter's test: the name contains the query, or else the collection slug does. */
  function MatchesQuery(c: Json, q: string): Option<bool> {
    match Member(c, "name")
    case None => None
    case Some(name) =>
      match FieldContains(name, q)
      case None => None
      case Some(true) => Some(true)
      case Some(false) => FieldContains(Field(c, "collection"), q)
  }

  /** `cs.filter(test)`: the matching elements in order, or `None` when a test throws. */
  function FilterMatches(cs: seq<Json>, q: string): (r: Option<seq<Json>>)
    ensures r.Some? ==> forall k :: 0 <= k < |r.value| ==> MatchesQuery(r.value[k], q) == Some(true)
    ensures r.Some? ==> |r.value| <= |cs|
    ensures r.Some? ==> forall k :: 0 <= k < |cs| && MatchesQuery(cs[k], q) == Some(true) ==> cs[k] in r.value
    ensures r.None? <==> exists k :: 0 <= k < |cs| && MatchesQuery(cs[k], q).None?
  {
    if cs == [] then Some([])
    else
      var head := MatchesQuery(cs[0], q);
      var rest := FilterMatches(cs[1..], q);
      assert forall k :: 1 <= k < |cs| ==> cs[k] == cs[1..][k - 1];
      if head.None? || rest.None? then None
      else if head.value then Some([cs[0]] + rest.value)
      else rest
  }

  /** Filtering one collection keeps it exactly when it matches. */
  lemma FilterOne(c: Json, q: string)
    ensures FilterMatches([c], q) == match MatchesQuery(c, q)
      case None => None
      case Some(m) => Some(if m then [c] else [])
  {
    assert [c][1..] == [];
    assert FilterMatches([], q) == Some([]);
    assert [c] + [] == [c];
  }

  /** Filtering a concatenation filters the two parts and keeps their order; a test that
      throws in either part makes the whole filter throw. */
  lemma {:induction false} FilterAppend(a: seq<Json>, b: seq<Json>, q: string)
    ensures FilterMatches(a + b, q) == match (FilterMatches(a, q), FilterMatches(b, q))
      case (Some(x), Some(y)) => Some(x + y)
      case _ => None
    decreases |a|
  {
    if a == [] {
      assert a + b == b;
      assert FilterMatches(a, q) == Some([]);
      if FilterMatches(b, q).Some? {
        assert [] + FilterMatches(b, q).value == FilterMatches(b, q).value;
      }
    } else {
      assert (a + b)[0] == a[0];
      assert (a + b)[1..] == a[1..] + b;
      FilterAppend(a[1..], b, q);
      var ra, rb := FilterMatches(a[1..], q), FilterMatches(b, q);
      if MatchesQuery(a[0], q).Some? && ra.Some? && rb.Some? && MatchesQuery(a[0], q).value {
        assert [a[0]] + (ra.value + rb.value) == ([a[0]] + ra.value) + rb.value;
      }
    }
  }

  /** The matches of the collection list of a successful response, or `None` when the
      request, the body, the list or a test fails. */
  function SearchKept(query: string, respond: HttpResult): Option<seq<Json>> {
    if respond.Response? && respond.ok && respond.body.Ok? && !IsNullish(respond.body.value) then
      var all := Or(Field(respond.body.value, "collections"), Arr([]));
      if all.Arr? then FilterMatches(all.elems, query) else None
    else None
  }

  /** The search as it is evidently meant to work, reading the collection list from a
      request that can be made: keep the collections whose name or slug contains the query
      case-insensitively, at most `limit` of them; any failure gives `[]`. */
  function SearchCollections(query: string, limit: int, respond: HttpResult): (r: Json)
    ensures r.Arr?
  {
    match respond
    case NetworkError(_) => Arr([])
    case Response(ok, body) =>
      if !ok then Arr([])
      else match body
        case Err(_) => Arr([])
        case Ok(data) =>
          match Member(data, "collections")
          case None => Arr([])
          case Some(cs) =>
            var all := Or(cs, Arr([]));
            if !all.Arr? then Arr([])
            else match FilterMatches(all.elems, query)
              case None => Arr([])
              case Some(kept) => Arr(Slice(kept, 0, limit))
  }

  /** Every collection the corrected search returns matches the query, and a non-negative
      limit caps the count: the result is the first min(limit, n) of the n matches, in the
      list's order, and `[]` whenever anything fails. */
  lemma SearchResultsMatch(query: string, limit: int, respond: HttpResult)
    ensures var r := SearchCollections(query, limit, respond);
      && (forall k :: 0 <= k < |r.elems| ==> MatchesQuery(r.elems[k], query) == Some(true))
      && (0 <= limit ==> |r.elems| <= limit)
    ensures SearchKept(query, respond).None? ==> SearchCollections(query, limit, respond) == Arr([])
    ensures SearchKept(query, respond).Some? && 0 <= limit ==>
      var kept := SearchKept(query, respond).value;
      SearchCollections(query, limit, respond).elems == kept[..if limit < |kept| then limit else |kept|]
  {
    if respond.Response? && respond.ok && respond.body.Ok? {
      var data := respond.body.value;
      if !IsNullish(data) {
        var all := Or(Field(data, "collections"), Arr([]));
        if all.Arr? && FilterMatches(all.elems, query).Some? {
          var kept := FilterMatches(all.elems, query).value;
          SlicePrefixIfNatural(kept, limit);
          if limit < 0 {
            var a := ClampIndex(|kept|, limit);
            assert Slice(kept, 0, limit) == kept[0..a] || Slice(kept, 0, limit) == [];
          }
        }
      }
    }
  }

  /** The search as written returns nothing even where the intended search finds a match. */
  lemma SearchAsWrittenMissesMatches()
    ensures var respond := Response(true, Ok(Obj(map["collections" := Arr([Obj(map["name" := Str("Azuki")])])])));
      && SearchCollectionsAsWritten("azu", 10, respond) == Arr([])
      && SearchCollections("azu", 10, respond) == Arr([Obj(map["name" := Str("Azuki")])])
  {
    var c := Obj(map["name" := Str("Azuki")]);
    assert ToLower("Azuki") == "azuki";
    assert ToLower("azu") == "azu";
    assert "azuki"[..3] == "azu";
    assert Includes("azuki", "azu");
    assert MatchesQuery(c, "azu") == Some(true);
    assert [c][1..] == [];
  }
}
