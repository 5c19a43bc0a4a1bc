/** Two small pure rules of the proxy's GET routes: which collection slugs the NFT route asks
    the marketplace for, and which picture a music track is shown with. */
module ServerRoutes {
  import opened Wrappers
  import opened Js
  import opened Json

  /** The collections the NFT route pads every request with, in this order. */
  const PopularCollections: seq<string> :=
    ["pudgypenguins", "boredapeyachtclub", "azuki", "doodles-official", "cryptopunks", "milady", "degods"]

  const TrendingSlug: string := "trending"

  const DefaultLimit: int := 20

  /** `parseInt(req.query.limit) || 20`, given what `parseInt` read: `None` stands for NaN
      (no query parameter, or no leading digits); NaN and 0 are falsy, so both give 20. */
  function ParseLimit(parsed: Option<int>): (limit: int)
    ensures limit != 0
    ensures parsed.Some? && parsed.value != 0 ==> limit == parsed.value
    ensures parsed.None? || parsed.value == 0 ==> limit == DefaultLimit
  {
    match parsed
    case None => DefaultLimit
    case Some(n) => if n == 0 then DefaultLimit else n
  }

  /** `slug === 'trending' ? POPULAR_COLLECTIONS.slice(0, limit)
      : [slug, ...POPULAR_COLLECTIONS.slice(0, limit - 1)]` */
  function SlugsToFetch(slug: string, limit: int): seq<string> {
    if slug == TrendingSlug then Slice(PopularCollections, 0, limit)
    else [slug] + Slice(PopularCollections, 0, limit - 1)
  }

  function Min(a: int, b: int): int { if a < b then a else b }

  /** For a positive limit the trending request is the first min(limit, 7) popular slugs. */
  lemma TrendingSlugs(limit: int)
    requires 1 <= limit
    ensures SlugsToFetch(TrendingSlug, limit) == PopularCollections[..Min(limit, |PopularCollections|)]
    ensures |SlugsToFetch(TrendingSlug, limit)| <= limit
  {
    SlicePrefix(PopularCollections, limit);
  }

  /** For a positive limit any other slug comes first, followed by the first min(limit - 1, 7)
      popular slugs, so the request never names more than `limit` collections. */
  lemma NamedSlugFirst(slug: string, limit: int)
    requires 1 <= limit && slug != TrendingSlug
    ensures var r := SlugsToFetch(slug, limit);
      && r == [slug] + PopularCollections[..Min(limit - 1, |PopularCollections|)]
      && 1 <= |r| <= limit
  {
    SlicePrefix(PopularCollections, limit - 1);
  }

  /** A negative limit counts from the end of the popular list: `limit=-3` fetches four
      trending collections. */
  lemma NegativeLimitCountsFromEnd()
    ensures SlugsToFetch(TrendingSlug, -3) == PopularCollections[..4]
    ensures SlugsToFetch("azuki", -3) == ["azuki"] + PopularCollections[..3]
  {
    assert ClampIndex(|PopularCollections|, -3) == 4;
    assert ClampIndex(|PopularCollections|, -4) == 3;
  }

  /** The picture of a music track: a string `artwork` as it is, else the first truthy of its
      480, 150 and 1000 pixel sizes; and when that gives nothing truthy, the first truthy of
      the 480 and 150 pixel `cover_art_sizes`. The starting value is `null`. */
  function ArtworkUrl(track: Json): Json {
    var art := Field(track, "artwork");
    var chosen :=
      if !Truthy(art) then Null
      else if art.Str? then art
      else Or(Or(Field(art, "480x480"), Field(art, "150x150")), Field(art, "1000x1000"));
    var cover := Field(track, "cover_art_sizes");
    if !Truthy(chosen) && Truthy(cover) then Or(Field(cover, "480x480"), Field(cover, "150x150"))
    else chosen
  }

  /** Every place the fallback chain looks, in the order it looks there. */
  function ArtworkCandidates(track: Json): seq<Json> {
    var art := Field(track, "artwork");
    var cover := Field(track, "cover_art_sizes");
    (if !Truthy(art) then []
     else if art.Str? then [art]
     else [Field(art, "480x480"), Field(art, "150x150"), Field(art, "1000x1000")])
    + (if Truthy(cover) then [Field(cover, "480x480"), Field(cover, "150x150")] else [])
  }

  /** The first truthy value of a list, if there is one. */
  function FirstTruthy(xs: seq<Json>): (r: Option<Json>)
    ensures r.Some? ==> Truthy(r.value) && r.value in xs
    ensures r.None? <==> forall k :: 0 <= k < |xs| ==> !Truthy(xs[k])
  {
    if xs == [] then None else if Truthy(xs[0]) then Some(xs[0]) else FirstTruthy(xs[1..])
  }

  lemma {:induction false} FirstTruthyAppend(xs: seq<Json>, ys: seq<Json>)
    ensures FirstTruthy(xs + ys) == if FirstTruthy(xs).Some? then FirstTruthy(xs) else FirstTruthy(ys)
  {
    if xs != [] {
      assert (xs + ys)[1..] == xs[1..] + ys;
      FirstTruthyAppend(xs[1..], ys);
    } else {
      assert xs + ys == ys;
    }
  }

  /** `a || b` is the first truthy of the two, if either is. */
  lemma FirstTruthyOfTwo(a: Json, b: Json)
    ensures FirstTruthy([a, b]) == if Truthy(Or(a, b)) then Some(Or(a, b)) else None
  {
    assert [a, b][1..] == [b];
    assert [b][1..] == [];
  }

  /** `a || b || c` is the first truthy of the three, if any is. */
  lemma FirstTruthyOfThree(a: Json, b: Json, c: Json)
    ensures FirstTruthy([a, b, c]) == if Truthy(Or(Or(a, b), c)) then Some(Or(Or(a, b), c)) else None
  {
    assert [a, b, c][1..] == [b, c];
    FirstTruthyOfTwo(b, c);
  }

  /** The track's picture is truthy exactly when one of the candidates is, and then it is the
      first truthy candidate; otherwise it is the last candidate, or `null` when the chain
      looked nowhere. */
  lemma ArtworkIsFirstTruthyCandidate(track: Json)
    ensures FirstTruthy(ArtworkCandidates(track))
      == if Truthy(ArtworkUrl(track)) then Some(ArtworkUrl(track)) else None
    ensures !Truthy(ArtworkUrl(track)) ==>
      ArtworkUrl(track) == (if ArtworkCandidates(track) == [] then Null
                            else ArtworkCandidates(track)[|ArtworkCandidates(track)| - 1])
  {
    var art := Field(track, "artwork");
    var cover := Field(track, "cover_art_sizes");
    var xs :=
      if !Truthy(art) then []
      else if art.Str? then [art]
      else [Field(art, "480x480"), Field(art, "150x150"), Field(art, "1000x1000")];
    var ys := if Truthy(cover) then [Field(cover, "480x480"), Field(cover, "150x150")] else [];
    assert ArtworkCandidates(track) == xs + ys;
    FirstTruthyAppend(xs, ys);
    if Truthy(art) && !art.Str? {
      FirstTruthyOfThree(Field(art, "480x480"), Field(art, "150x150"), Field(art, "1000x1000"));
    } else if Truthy(art) {
      assert [art][1..] == [];
    }
    if Truthy(cover) {
      FirstTruthyOfTwo(Field(cover, "480x480"), Field(cover, "150x150"));
    }
  }
}
