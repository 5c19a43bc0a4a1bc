/** The per-call pieces of the chat endpoint's tool-use loop (mockup-app/server/index.js):
    converting the remote tool list into the model's tool format, the size cap on a tool
    result sent back to the model, and the normalisation of the JSON a tool returns into NFT
    records. */
module ChatTools {
  import opened Wrappers
  import opened Js
  import opened Json

  // ---------------------------------------------------------------------------------------
  // Tool descriptors

  /** A tool as the remote tool service advertises it. */
  datatype McpTool = McpTool(name: string, description: Json, inputSchema: Json)

  /** A tool as the model's API expects it. */
  datatype ClaudeTool = ClaudeTool(name: string, description: Json, inputSchema: Json)

  /** `{ type: 'object', properties: {} }`, the schema of a tool that declares none. */
  const EmptySchema: Json := Obj(map["type" := Str("object"), "properties" := Obj(map[])])

  /** `mcpToolsToClaudeTools`: one model tool per remote tool, in order, carrying its name, its
      description or `''`, and its input schema or the empty object schema. */
  function McpToolsToClaudeTools(tools: seq<McpTool>): (r: seq<ClaudeTool>)
    ensures |r| == |tools|
    ensures forall i :: 0 <= i < |tools| ==>
      && r[i].name == tools[i].name
      && r[i].description == (if Truthy(tools[i].description) then tools[i].description else Str(""))
      && r[i].inputSchema == (if Truthy(tools[i].inputSchema) then tools[i].inputSchema else EmptySchema)
  {
    seq(|tools|, i requires 0 <= i < |tools| =>
      ClaudeTool(tools[i].name, Or(tools[i].description, Str("")), Or(tools[i].inputSchema, EmptySchema)))
  }

  /** The names the model is offered are the names the service advertised. */
  lemma ToolNamesPreserved(tools: seq<McpTool>, i: int)
    requires 0 <= i < |tools|
    ensures exists j :: 0 <= j < |McpToolsToClaudeTools(tools)| && McpToolsToClaudeTools(tools)[j].name == tools[i].name
  {
    assert McpToolsToClaudeTools(tools)[i].name == tools[i].name;
  }

  // ---------------------------------------------------------------------------------------
  // Truncation of a tool result

  const MaxToolContent: nat := 10000
  const TruncationMarker: string := "... [truncated]"

  /** The serialised tool result sent back to the model: unchanged up to 10,000 characters,
      otherwise its first 10,000 characters followed by the marker, 10,015 in all. */
  function Truncate(content: string): (r: string)
    ensures |content| <= MaxToolContent ==> r == content
    ensures |content| > MaxToolContent ==>
      |r| == 10015 && r[..MaxToolContent] == content[..MaxToolContent] && r[MaxToolContent..] == TruncationMarker
  {
    if |content| > MaxToolContent then content[..MaxToolContent] + TruncationMarker else content
  }

  /** Whatever the tool returned, the model never receives more than 10,015 characters of it,
      and it always receives a prefix of the serialised result. */
  lemma TruncateBounded(content: string)
    ensures |Truncate(content)| <= MaxToolContent + |TruncationMarker|
    ensures var r := Truncate(content); var k := if |r| < MaxToolContent then |r| else MaxToolContent;
      r[..k] == content[..k]
  {
  }

  /** Truncating an already truncated result changes nothing. */
  lemma TruncateIdempotent(content: string)
    ensures Truncate(Truncate(content)) == Truncate(content)
  {
    if |content| > MaxToolContent {
      var r := Truncate(content);
      assert r[..MaxToolContent] == content[..MaxToolContent];
    }
  }

  // ---------------------------------------------------------------------------------------
  // NFT records found in tool results

  /** One entry of the `nfts` list in the chat reply; a field the source does not set is
      `Undefined` (and so absent from the JSON sent to the client). */
  datatype NftRecord = NftRecord(
    identifier: Json, name: Json, imageUrl: Json, collection: Json, floorPrice: Json, description: Json)

  /** The three element shapes pushed one record per element: `results` and `items`/`nfts`,
      `itemsByQuery` (whose name fallback also tries `identifier`), and `trendingCollections`. */
  datatype Shape = ItemShape | QueryShape | TrendingShape

  /** The record for one element of `results`, `items`/`nfts` or `itemsByQuery`; reading a
      property of a `null` element throws (`None`). */
  function ItemRecord(nft: Json, shape: Shape): Option<NftRecord> {
    if IsNullish(nft) then None
    else
      var id := Field(nft, "id");
      var meta := Field(nft, "metadata");
      var shown := if shape == QueryShape then Or(id, Field(nft, "identifier")) else id;
      Some(NftRecord(
        Or(id, Or(Field(nft, "identifier"), Field(nft, "tokenId"))),
        Or(Field(nft, "name"), Or(Field(meta, "name"), Str("#" + Display(shown)))),
        Or(Field(nft, "imageUrl"), Or(Field(nft, "image_url"), Field(meta, "imageUrl"))),
        Or(Field(Field(nft, "collection"), "slug"), Or(Field(nft, "collectionSlug"), Field(nft, "collection"))),
        Undefined, Undefined))
  }

  /** The record for one element of `trendingCollections`. */
  function TrendingRecord(col: Json): Option<NftRecord> {
    if IsNullish(col) then None
    else
      var slug := Or(Field(col, "slug"), Field(col, "collectionSlug"));
      Some(NftRecord(
        slug,
        Or(Field(col, "name"), Field(col, "slug")),
        Or(Field(col, "imageUrl"), Field(col, "image_url")),
        slug,
        Field(Field(Field(col, "floorPrice"), "native"), "unit"),
        Undefined))
  }

  function RecordOf(x: Json, shape: Shape): Option<NftRecord> {
    if shape == TrendingShape then TrendingRecord(x) else ItemRecord(x, shape)
  }

  /** `col.description?.slice(0, 100)`: strings and arrays are cut to 100 entries, nullish
      gives `undefined`, and any other value has no `slice` method, so the call throws. */
  function DescriptionPrefix(d: Json): Option<Json> {
    match d
    case Undefined => Some(Undefined)
    case Null => Some(Undefined)
    case Str(s) => Some(Str(Slice(s, 0, 100)))
    case Arr(xs) => Some(Arr(Slice(xs, 0, 100)))
    case _ => None
  }

  /** The record for one element of `collections`. */
  function CollectionRecord(col: Json): Option<NftRecord> {
    if IsNullish(col) then None
    else
      var slug := Field(col, "slug");
      match DescriptionPrefix(Field(col, "description"))
      case None => None
      case Some(desc) =>
        Some(NftRecord(
          slug,
          Or(Field(col, "name"), slug),
          Field(col, "imageUrl"),
          slug,
          Field(Field(Field(Field(col, "floorPrice"), "pricePerItem"), "native"), "unit"),
          desc))
  }

  /** The accumulated records, and whether the scan of the current parsed value threw (the
      rest of that value is then skipped, and what was pushed before the throw stays). */
  datatype Scan = Scan(items: seq<NftRecord>, threw: bool)

  /** Pushes one record per element, stopping at the first element that throws. */
  function PushRecords(acc: seq<NftRecord>, elems: seq<Json>, shape: Shape): (r: Scan)
    ensures acc <= r.items
    ensures |r.items| <= |acc| + |elems|
    ensures !r.threw ==> |r.items| == |acc| + |elems|
    decreases |elems|
  {
    if elems == [] then Scan(acc, false)
    else
      match RecordOf(elems[0], shape)
      case None => Scan(acc, true)
      case Some(rec) => PushRecords(acc + [rec], elems[1..], shape)
  }

  /** The branch for an array-valued key (`results`, `trendingCollections`, `itemsByQuery`):
      it runs only when the value is an array. */
  function ArrayBranch(acc: seq<NftRecord>, v: Json, shape: Shape): (r: Scan)
    ensures acc <= r.items
  {
    if v.Arr? then PushRecords(acc, v.elems, shape) else Scan(acc, false)
  }

  /** The `items`/`nfts` branch: `items` wins when truthy, and a truthy value that is not
      iterable throws. */
  function ItemsBranch(acc: seq<NftRecord>, parsed: Json): (r: Scan)
    ensures acc <= r.items
  {
    var items, nfts := Field(parsed, "items"), Field(parsed, "nfts");
    if Truthy(items) || Truthy(nfts) then
      match Iterate(Or(items, Or(nfts, Arr([]))))
      case None => Scan(acc, true)
      case Some(es) => PushRecords(acc, es, ItemShape)
    else Scan(acc, false)
  }

  /** The `collections` branch: only when `results` is falsy, and it pushes the first
      collection only if nothing has been accumulated at all. */
  function CollectionsBranch(acc: seq<NftRecord>, parsed: Json): (r: Scan)
    ensures acc <= r.items && |r.items| <= |acc| + 1
    ensures r.items != acc ==> acc == [] && !Truthy(Field(parsed, "results"))
  {
    var cols := Field(parsed, "collections");
    if Truthy(cols) && !Truthy(Field(parsed, "results")) then
      match Iterate(cols)
      case None => Scan(acc, true)
      case Some(cs) =>
        if acc == [] && cs != [] then
          match CollectionRecord(cs[0])
          case None => Scan(acc, true)
          case Some(rec) => Scan([rec], false)
        else Scan(acc, false)
    else Scan(acc, false)
  }

  /** The five shape branches applied in the source's order to one parsed tool text; once a
      branch throws, the later ones do not run.
      `Object.keys(parsed)` throws on `null`, so a parsed `null` adds nothing. */
  function Normalise(acc: seq<NftRecord>, parsed: Json): (r: seq<NftRecord>)
    ensures acc <= r
  {
    if IsNullish(parsed) then acc
    else
      var s1 := ArrayBranch(acc, Field(parsed, "results"), ItemShape);
      var s2 := if s1.threw then s1 else ItemsBranch(s1.items, parsed);
      var s3 := if s2.threw then s2 else CollectionsBranch(s2.items, parsed);
      var s4 := if s3.threw then s3 else ArrayBranch(s3.items, Field(parsed, "trendingCollections"), TrendingShape);
      var s5 := if s4.threw then s4 else ArrayBranch(s4.items, Field(parsed, "itemsByQuery"), QueryShape);
      s5.items
  }

  /** One content entry of a tool's result. */
  datatype ContentItem = TextItem(text: string) | OtherItem

  /** The scan of a successful tool result: every non-empty text entry whose text parses as
      JSON is normalised; text that does not parse is skipped without error. */
  function ScanContent(acc: seq<NftRecord>, content: seq<ContentItem>, parse: string -> Option<Json>): (r: seq<NftRecord>)
    ensures acc <= r
    decreases |content|
  {
    if content == [] then acc
    else
      var item := content[0];
      var next :=
        if item.TextItem? && item.text != [] then
          match parse(item.text)
          case None => acc
          case Some(parsed) => Normalise(acc, parsed)
        else acc;
      ScanContent(next, content[1..], parse)
  }
}
