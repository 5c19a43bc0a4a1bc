# A verified model of the Liquid / MUTE mockup app's logic

The mockup app is a set of React screens backed by an Express proxy. The screens are a video
feed, a video grid and a studio screen with an NFT browser, a music list and a chat box.
The proxy stands in front of several services: a Claude model with OpenSea tools reached over
MCP, Google Veo video generation, and Audius music. This project models the parts of the app
that have precise behaviour, and proves what they promise.

Every remote service is an oracle passed in as a parameter:

- the model's successive replies;
- the outcome of each tool call;
- `JSON.parse`;
- each HTTP response, which may reject, come back not ok, or carry an unreadable body;
- the Veo start and poll calls.

Clocks are natural-number parameters. JavaScript values are the `Json` datatype of
`json.dfy`, which includes `undefined`. The JavaScript built-ins the code relies on are written
out in `js.dfy`: truthiness, `||`, `?.`, `trim`, ASCII `toLowerCase`, `slice` with its index
clamping, `padStart` and decimal `toString`.

Modules follow the program:

- **The `/api/chat` endpoint**
  - `ChatTools`: tool conversion, truncation and NFT normalisation.
  - `ChatActions`: the `[ACTION:…]` parser and stripper.
  - `ChatLoop`: the tool-use loop and the endpoint.
  - `ChatToolsFacts`, `ChatActionsExamples`, `ChatLoopFacts` and `ChatFacts`: lemmas about the above.
- **The rest of the proxy**
  - `ServerRoutes`: the NFT route's `slugsToFetch` and the Audius artwork fallback.
  - `VeoJobs`: the Veo job table, a class over a `map`.
- **Browser services**: `OpenSeaClient` (`opensea.js`) and `AudiusClient` (`audius.js`).
- **The studio screen (`Frame5.jsx`)**
  - `ApiConfig`: the `API_URL` rule.
  - `Paging`: slice pagination.
  - `OpenSeaPanel`: de-duplication, the trending loader and collection search.
  - `ChatPanel`: the input history, the send guards and the last-50 persistence.
- **The other screens**: `HomeFeed` (`Home.jsx`) and `VideoGrid` (`Frame3.jsx`).

Stateful code is imperative Dafny. Each such method is proved against a specification
function:

- the tool loop and its inner loops;
- the regex `exec` loop;
- the Veo `Map`;
- the error-message reassignment;
- the parameter building;
- de-duplication with a `Set`;
- the trending `for` loop;
- the row-chunking loop;
- the screens' state, as classes.

## Model

| member | source | states |
|---|---|---|
| ChatTools.McpToolsToClaudeTools | mockup-app/server/index.js:56-62 | one model tool per remote tool, in order; same name; description or `''`; schema or the empty object schema |
| ChatTools.ToolNamesPreserved | mockup-app/server/index.js:56-62 | every advertised tool name is offered to the model |
| ChatTools.Truncate | mockup-app/server/index.js:225-228 | content of at most 10,000 characters passes unchanged; longer content becomes its first 10,000 characters plus `... [truncated]`, 10,015 in all |
| ChatTools.TruncateBounded | mockup-app/server/index.js:225-228 | the model never receives more than 10,015 characters, and what it receives starts with the serialised result |
| ChatTools.TruncateIdempotent | mockup-app/server/index.js:225-228 | truncating a truncated result changes nothing |
| ChatTools.PushRecords | mockup-app/server/index.js:150-158 | the push loop only appends, at most one record per element, and exactly one per element when nothing throws |
| ChatTools.CollectionsBranch | mockup-app/server/index.js:175-189 | the collections branch adds at most one record, only onto an empty accumulator and only when `results` is falsy |
| ChatTools.Normalise | mockup-app/server/index.js:148-219 | the five shape branches (records built by `ItemRecord`, `CollectionRecord` and `TrendingRecord`), in order, only append to the records fetched so far |
| ChatTools.ScanContent | mockup-app/server/index.js:141-221 | the scan of a result's text items only appends records |
| ChatToolsFacts.PushRecordsAll | mockup-app/server/index.js:150-158 | elements with no null or undefined among them give one record each, in order, after the earlier records |
| ChatToolsFacts.ResultsOnePerElement | mockup-app/server/index.js:148-158 | a `results` array contributes one record (`ItemRecord`) per element, in order, right after the earlier records |
| ChatToolsFacts.ResultsExample | mockup-app/server/index.js:148-158 | `{results:[{id:"7",name:"Foo"}]}` gives exactly one record with identifier "7" and name "Foo" |
| ChatToolsFacts.NameFallbackExample | mockup-app/server/index.js:153 | a record without a name is named `#` + id |
| ChatToolsFacts.ItemsOverNfts | mockup-app/server/index.js:161-162 | when `items` is truthy, `nfts` is never read |
| ChatToolsFacts.CollectionsNeedNoResults | mockup-app/server/index.js:175 | with a truthy `results`, `collections` is ignored |
| ChatToolsFacts.CollectionsAddAtMostOne | mockup-app/server/index.js:175-189 | `collections` alone adds at most one record (`CollectionRecord`), and none once something has been accumulated |
| ChatToolsFacts.UnparseableSkipped | mockup-app/server/index.js:141-220 | text that does not parse is skipped without error |
| ChatActions.SpanEnd | mockup-app/server/index.js:279 | a greedy run stops at its first non-matching character |
| ChatActions.ActionAt | mockup-app/server/index.js:279 | a match found at p ends after p and satisfies the grammar |
| ChatActions.ActionAtSound | mockup-app/server/index.js:279-286 | every match is the text `[ACTION:<type>:<param1><tail>]`, with `param2` read from the tail |
| ChatActions.ActionAtComplete | mockup-app/server/index.js:279-286 | wherever a grammar marker starts, exactly that directive is found, ending after its `]` |
| ChatActions.NextAction | mockup-app/server/index.js:281 | `exec` from `lastIndex` finds a well-formed match that ends after `lastIndex` |
| ChatActions.ActionsWellFormed | mockup-app/server/index.js:281-287 | every collected directive has a word-character type and a non-empty param1 without `:` or `]` |
| ChatActions.ParseActions | mockup-app/server/index.js:278-287 | the `exec` loop returns `ActionsFrom(text, 0)`, the leftmost-match scan, all well-formed |
| ChatActions.StripAt | mockup-app/server/index.js:290 | a stripped marker ends after where it starts |
| ChatActions.ParsedMarkerStripped | mockup-app/server/index.js:279-290 | the strip pattern, anchored where a parsed marker starts, matches too and ends at the same `]` |
| ChatActions.KeptFrom | mockup-app/server/index.js:290 | the positions the replace keeps are in range and strictly increasing |
| ChatActions.KeptSpellsStrip | mockup-app/server/index.js:290 | the stripped text is the input read at the kept positions |
| ChatActions.MarkerEndsAtFirstClose | mockup-app/server/index.js:279 | a parsed marker closes at its first `]` |
| ChatActions.StripCrossingEndsWithMarker | mockup-app/server/index.js:279-290 | a strip match that starts before a parsed marker and reaches into it ends at the marker's `]` |
| ChatActions.MarkerNotKeptFrom | mockup-app/server/index.js:279-290 | the replace scan, started anywhere up to a parsed marker, keeps none of the marker's positions |
| ChatActions.ParsedMarkerNotDisplayed | mockup-app/server/index.js:279-290 | no character of a parsed marker reaches the stripped text, even when an earlier strip match swallows its start |
| ChatActions.StripWithoutMarkers | mockup-app/server/index.js:290 | text without `[ACTION:` is displayed unchanged (before trimming) |
| ChatActionsExamples.Param2Three | mockup-app/server/index.js:285 | the digit run "3" gives `param2` 3 |
| ChatActionsExamples.SetPageExample | mockup-app/server/index.js:279-287 | `[ACTION:SET_PAGE:azuki:3]` gives type SET_PAGE, param1 azuki, param2 3 |
| ChatActionsExamples.SetPageDisplaysEmpty | mockup-app/server/index.js:290 | a reply that is only a marker displays (`DisplayedText`, the trimmed `StripMarkers`) as empty text |
| ChatActionsExamples.NumberIsFirstParameter | mockup-app/server/index.js:279-287 | `[ACTION:X:12]` gives param1 "12" and no param2 |
| ChatActionsExamples.MalformedMarkerOnlyStripped | mockup-app/server/index.js:279-290 | `[ACTION:X:a:b]` yields no directive, yet is removed from the display |
| ChatActionsExamples.StrippingCanExposeMarker | mockup-app/server/index.js:290 | one pass of the replace can join the text around a removed marker into a new marker, which is then shown |
| ChatActionsExamples.SecondPassRemovesIt | mockup-app/server/index.js:290 | a second pass removes that exposed marker |
| ChatLoop.ToolUses | mockup-app/server/index.js:121 | the tool-use blocks of a reply are exactly its `tool_use` blocks |
| ChatLoop.ToolUsesOne | mockup-app/server/index.js:121 | one block gives its call when it is a tool use, and nothing otherwise |
| ChatLoop.ToolUsesAppend | mockup-app/server/index.js:121 | the filter keeps order and multiplicity: the calls of a concatenation are the first part's then the second's |
| ChatLoop.Connect | mockup-app/server/index.js:67-86 | the client exists iff MCP is enabled with a token and connecting succeeded; tools are offered only after a successful listing |
| ChatLoop.Outcome | mockup-app/server/index.js:134-137 | with no client, every tool call throws the null-call TypeError |
| ChatLoop.ResultFor | mockup-app/server/index.js:224-242 | a result quotes the tool use's id, is an error exactly when the call threw, and otherwise carries the truncated content |
| ChatLoop.RoundResults | mockup-app/server/index.js:131-243 | one result per tool use, in the same order |
| ChatLoop.Absorb | mockup-app/server/index.js:140-241 | a thrown call adds no records |
| ChatLoop.RoundRecords | mockup-app/server/index.js:131-243 | a round only appends records, and adds none without a client |
| ChatLoop.ScanToolContent | mockup-app/server/index.js:141-221 | the `for (const item of …)` loop computes the scan specification |
| ChatLoop.RunToolRound | mockup-app/server/index.js:131-243 | the `for (const toolUse …)` loop returns the round's results and records |
| ChatLoop.Step | mockup-app/server/index.js:119-258 | a round appends exactly two messages and one model call, which offers the tools and sends the whole conversation |
| ChatLoop.RunLoop | mockup-app/server/index.js:120-259 | the `while (stop_reason === 'tool_use')` loop computes the loop specification `LoopFrom` |
| ChatLoop.Chat | mockup-app/server/index.js:65-310 | the endpoint computes the endpoint specification `ChatSpec` (the `Transcript` of the loop and its `Answer`: the joined `ReplyText`, cleaned, with its directives); the client is closed only on success; failures answer 500 |
| ChatLoopFacts.RoundAnswers | mockup-app/server/index.js:131-243 | a round's results answer its tool uses one for one, with ids paired and errors tagged |
| ChatLoopFacts.StepPaired | mockup-app/server/index.js:124-249 | a round appends an assistant turn and then the user turn of results that answers it |
| ChatLoopFacts.LoopConversation | mockup-app/server/index.js:120-259 | the final conversation extends the request's messages by paired rounds only |
| ChatLoopFacts.LoopCallCount | mockup-app/server/index.js:120-259 | each round adds one model call and exactly two messages |
| ChatLoopFacts.LoopCallTools | mockup-app/server/index.js:252-258 | every call after the first offers the tools array |
| ChatLoopFacts.LoopLastCall | mockup-app/server/index.js:252-258 | the call that produced the final reply was sent the whole conversation |
| ChatLoopFacts.LoopWithoutClient | mockup-app/server/index.js:133-243 | without a client, no round adds records and every tool result is the TypeError |
| ChatLoopFacts.ChatSpecParts | mockup-app/server/index.js:262-300 | the response's NFTs are the loop's records; `toolsUsed` means the conversation grew; closing implies a client |
| ChatFacts.ToolsUsedIffFirstReplyAsked | mockup-app/server/index.js:275 | `toolsUsed` holds exactly when the first reply stopped for tools |
| ChatFacts.CallsOfChat | mockup-app/server/index.js:107-258 | the first call (`FirstCall`) offers tools only when there are some; every later call offers the tools array |
| ChatFacts.TranscriptOfChat | mockup-app/server/index.js:115-259 | the last call sent the client's messages followed by paired rounds |
| ChatFacts.NoClientNoNfts | mockup-app/server/index.js:74-265 | without a client the model is told every call failed; no NFT is returned and nothing is closed |
| ServerRoutes.ParseLimit | mockup-app/server/index.js:329 | NaN or 0 gives 20; any other parsed number is kept |
| ServerRoutes.TrendingSlugs | mockup-app/server/index.js:322-335 | for a positive limit, a trending request (`SlugsToFetch`) fetches the first min(limit, 7) popular slugs |
| ServerRoutes.NamedSlugFirst | mockup-app/server/index.js:335 | a named slug comes first, followed by the first min(limit - 1, 7) popular slugs; between 1 and limit in all |
| ServerRoutes.NegativeLimitCountsFromEnd | mockup-app/server/index.js:329-335 | a negative limit counts from the end of the popular list |
| ServerRoutes.FirstTruthy | mockup-app/server/index.js:697 | the first truthy element of a list, if any |
| ServerRoutes.FirstTruthyAppend | mockup-app/server/index.js:697-702 | the first truthy of a concatenation comes from the first part when it has one |
| ServerRoutes.ArtworkIsFirstTruthyCandidate | mockup-app/server/index.js:692-703 | the artwork is the first truthy of: a string artwork, its 480, 150 and 1000 sizes, then the cover-art 480 and 150 sizes (`ArtworkUrl`); when none is truthy, the last candidate, or null when there is none |
| VeoJobs.ConfigFor | mockup-app/server/index.js:426-446 | the model default applies only to an undefined model; the image is sent exactly when a reference image is truthy |
| VeoJobs.OperationId | mockup-app/server/index.js:451 | the id is the operation's name when truthy, else `op_<clock>`; never falsy |
| VeoJobs.ReportedMessage | mockup-app/server/index.js:471-480 | the reported message is the first present of `response.data.error.message`, `error.error.message` and `error.message`, else the default |
| VeoJobs.UnwrapErrorMessage | mockup-app/server/index.js:471-480 | the successive reassignment computes that priority |
| VeoJobs.DeeperMessageWins | mockup-app/server/index.js:471-480 | a nested message (an `ErrorObject`) wins over a shallower one |
| VeoJobs.Videos | mockup-app/server/index.js:514 | a truthy `response.generatedVideos` is returned as it is; otherwise `[]` |
| VeoJobs.VideoUrl | mockup-app/server/index.js:515 | the first video's uri when it is truthy; null when it is falsy or there is no video; never any other value |
| VeoJobs.VeoOperations.constructor | mockup-app/server/index.js:414 | the job table starts empty |
| VeoJobs.VeoOperations.Generate | mockup-app/server/index.js:417-487 | 400 without a key or with a falsy prompt, before the service is called; otherwise the id is stored with status processing; failures answer 500 with the unwrapped message |
| VeoJobs.VeoOperations.Status | mockup-app/server/index.js:490-543 | 400 without a key; 404 for an unknown id; when done, the first video url and the entry is deleted; while processing, the table is unchanged; failures answer 500 |
| VeoJobs.PollAfterCompletion | mockup-app/server/index.js:500-527 | after a poll answered completed, a second poll of that id is 404 |
| OpenSeaClient.MockList | mockup-app/src/services/opensea.js:8-49 | each collection has eight mock NFTs |
| OpenSeaClient.GetMockNfts | mockup-app/src/services/opensea.js:52-55 | a known slug's mock list (`MockNfts`), else the penguins' list, cut to the first min(limit, 8) |
| OpenSeaClient.UnknownSlugGetsPenguins | mockup-app/src/services/opensea.js:53 | a slug without mock data gets exactly the penguins' list |
| OpenSeaClient.GetNftsByCollection | mockup-app/src/services/opensea.js:58-74 | success gives `nfts` or `[]`; a rejected fetch, not-ok status, unreadable body or nullish body gives the mock fallback; it never throws |
| OpenSeaClient.FallbackIsBounded | mockup-app/src/services/opensea.js:63-73 | a rejected fetch, a non-ok status, an unreadable body or a nullish body gives an array of at most 8 mock NFTs, min(limit, 8) of them for limit >= 0 |
| OpenSeaClient.GetTopCollections | mockup-app/src/services/opensea.js:76-97 | `collections` only when success and collections are both truthy; `[]` otherwise; never throws |
| OpenSeaClient.FilterMatches | mockup-app/src/services/opensea.js:112-115 | (test: `MatchesQuery`) keeps only matching collections and every matching collection; fails exactly when a test throws |
| OpenSeaClient.FilterOne | mockup-app/src/services/opensea.js:112-115 | one collection is kept exactly when it matches, and a throwing test fails the filter |
| OpenSeaClient.FilterAppend | mockup-app/src/services/opensea.js:112-115 | filtering a concatenation gives the two parts' results in order; with FilterOne this fixes the result as the matches in input order |
| OpenSeaClient.SearchCollections | mockup-app/src/services/opensea.js:100-122 | the intended search always returns an array |
| OpenSeaClient.SearchResultsMatch | mockup-app/src/services/opensea.js:112-117 | every result's name or slug contains the query, ignoring case; at most `limit` results; for `limit >= 0` the result is the first min(limit, n) of the n matches (`SearchKept`) in order; `[]` when the request, the body or a test fails |
| OpenSeaClient.SearchAsWrittenMissesMatches | mockup-app/src/services/opensea.js:104-121 | as written (`SearchCollectionsAsWritten`) the search returns `[]` even where a collection matches |
| AudiusClient.Get | mockup-app/src/services/audius.js:5-6 | `params.get` is the value of the first parameter with that name; absent iff the name is not there |
| AudiusClient.AppendIfTruthy | mockup-app/src/services/audius.js:6 | appends the parameter exactly when its value is truthy |
| AudiusClient.TrendingParams | mockup-app/src/services/audius.js:4-6 | always `limit` (default 10) and `time` (default week), then `genre` only when truthy; a null limit throws |
| AudiusClient.SearchParams | mockup-app/src/services/audius.js:18-21 | always `q` and `limit`, then `genre` and `mood` only when truthy; a null limit throws |
| AudiusClient.Unwrap | mockup-app/src/services/audius.js:11-14 | the payload when `success` is truthy; otherwise an error with `data.error` or the fixed default; a nullish body throws reading `success`; a rejection passes through |
| AudiusClient.GetTrendingTracks | mockup-app/src/services/audius.js:3-15 | a null limit throws before sending; otherwise sends to `/api/audius/trending` exactly `limit` (`LimitString`: default 10), `time` (default week) and a truthy `genre`, with their values, and unwraps `tracks` with the trending default message |
| AudiusClient.SearchTracks | mockup-app/src/services/audius.js:17-30 | a null limit throws before sending; otherwise sends to `/api/audius/search` exactly `q`, `limit` (default 10) and a truthy `genre` and `mood`, with their values, and unwraps `tracks` with the search default message |
| AudiusClient.GetTrack | mockup-app/src/services/audius.js:32-40 | requests `/api/audius/track/<id>` with no parameters; a successful body gives its `track`; another body gives its `error` or the track default message; a nullish body throws on `.success`; a rejected request passes its error on |
| AudiusClient.FormatDuration | mockup-app/src/services/audius.js:42-47 | "0:00" for undefined, null or 0 |
| AudiusClient.FormatNatural | mockup-app/src/services/audius.js:44-46 | for seconds >= 0: minutes, a colon, then the remaining seconds as two digits |
| AudiusClient.DurationRoundTrip | mockup-app/src/services/audius.js:44-46 | reading `M:SS` back gives M·60 + SS = s, and the seconds field is exactly two digits |
| AudiusClient.NegativeDuration | mockup-app/src/services/audius.js:44-46 | with JS's truncating `%` (`TruncRem`), -61 formats as "-2:-1" |
| ApiConfig.ApiUrl | mockup-app/src/Frame5.jsx:7-20 | an explicit URL wins; otherwise a host gives http for localhost/127.0.0.1 and https otherwise, with the port unless it is empty, 80 or 443; else `http://localhost:3001` |
| ApiConfig.SchemeFollowsHost | mockup-app/src/Frame5.jsx:12-13 | the scheme is plain http exactly for a local host |
| ApiConfig.PortShownIff | mockup-app/src/Frame5.jsx:14-17 | the port is appended exactly when it is set and is neither 80 nor 443 |
| Paging.CeilDiv | mockup-app/src/Frame5.jsx:125 | `Math.ceil(n / k)`: the least r with n <= r·k |
| Paging.PageItems | mockup-app/src/Frame5.jsx:124 | a page holds at most `perPage` items: the window at `page·perPage` when full, nothing past the end |
| Paging.PageNonEmptyIffInRange | mockup-app/src/Frame5.jsx:124-125 | a page (of `ItemsPerPage` items: 4 compact, 6 otherwise) has items exactly when its number is below `totalPages` (`TotalPages`) |
| Paging.PagesFromRest | mockup-app/src/Frame5.jsx:124 | the pages from p on, laid end to end, are the list from p·perPage on |
| Paging.AllPages | mockup-app/src/Frame5.jsx:124-125 | all pages laid end to end give back the list |
| Paging.ButtonsClamp | mockup-app/src/Frame5.jsx:351-357 | prev (`PrevPage`) and next (`NextPage`) keep the page in [0, totalPages - 1], moving one step unless already at that end |
| OpenSeaPanel.Deduplicate | mockup-app/src/Frame5.jsx:108-115 | the `Set`-guarded filter computes `Dedup`, the first-occurrence de-duplication by `NftKey` |
| OpenSeaPanel.DedupSameKeys | mockup-app/src/Frame5.jsx:108-115 | the kept items have the same keys as the input |
| OpenSeaPanel.DedupDistinctKeys | mockup-app/src/Frame5.jsx:108-115 | the kept items' keys are pairwise distinct |
| OpenSeaPanel.DedupIsSubsequence | mockup-app/src/Frame5.jsx:108-115 | the kept items are a subsequence of the input, so order is preserved |
| OpenSeaPanel.DedupKeepsFirst | mockup-app/src/Frame5.jsx:108-115 | each kept item is the first input item with its key |
| OpenSeaPanel.LoadNfts | mockup-app/src/Frame5.jsx:103-121 | the collection's NFTs, de-duplicated; the old list stays when the data is not an array or holds a nullish entry |
| OpenSeaPanel.TrendingSources | mockup-app/src/Frame5.jsx:40-42 | the first 2 (compact) or 3 trending collections; with none known, exactly that many entries, entry k being `{collection: slug_k, name: slug_k.split('-')[0]}` for the k-th popular slug |
| OpenSeaPanel.LoadTrendingNfts | mockup-app/src/Frame5.jsx:37-65 | gathers over `TrendingSources`: the result is `Gathered` of those sources, each source read by `FromSource` |
| OpenSeaPanel.GatherSources | mockup-app/src/Frame5.jsx:44-60 | the `for` loop over any source list computes `Gathered`, returning at once when a source aborts it |
| OpenSeaPanel.GatheredNext | mockup-app/src/Frame5.jsx:44-60 | one more source extends the gathered prefix by that source's outcome |
| OpenSeaPanel.AbortSticks | mockup-app/src/Frame5.jsx:46-60 | once the loop has thrown out of the catch block, later sources change nothing |
| OpenSeaPanel.Tag | mockup-app/src/Frame5.jsx:52-56 | the copy carries `collectionSlug` and `collectionName` with the source's slug and name |
| OpenSeaPanel.TagKeepsFields | mockup-app/src/Frame5.jsx:52-56 | the spread copy has exactly the object NFT's own fields plus the two tags; every other field keeps its value |
| OpenSeaPanel.TagAll | mockup-app/src/Frame5.jsx:52-56 | the `map`: one tagged NFT per NFT, in order |
| OpenSeaPanel.GatheredAreTagged | mockup-app/src/Frame5.jsx:52-56 | every gathered NFT carries `collectionSlug` and `collectionName` |
| OpenSeaPanel.OfflineGathersTwoEach | mockup-app/src/Frame5.jsx:50 | with every request failing, each source contributes at most two mock NFTs |
| OpenSeaPanel.FindContaining | mockup-app/src/Frame5.jsx:137-139 | `find`: the first popular slug that contains the query, or none |
| OpenSeaPanel.SearchSelection | mockup-app/src/Frame5.jsx:127-146 | a blank query changes nothing; otherwise the first popular slug (no earlier one contains it) that contains the lower-cased, trimmed query, else the query itself |
| OpenSeaPanel.FoundOrQuery | mockup-app/src/Frame5.jsx:137-141 | what `find` returns, or the query when it finds nothing, is the first containing slug or the query |
| ChatPanel.Recalled | mockup-app/src/Frame5.jsx:479 | recall position k shows an entry of the history (`messageHistory[length - 1 - k]`) |
| ChatPanel.UpIndex | mockup-app/src/Frame5.jsx:477 | ArrowUp moves one step back, and stays put only at the oldest entry |
| ChatPanel.DownIndex | mockup-app/src/Frame5.jsx:482-489 | ArrowDown moves one step forward from a recalled entry, to -1 after the newest, and stays at -1 |
| ChatPanel.ChatInput.constructor | mockup-app/src/Frame5.jsx:412-456 | starts from the saved history, not recalling, with an empty box and no request pending |
| ChatPanel.ChatInput.KeyDown | mockup-app/src/Frame5.jsx:474-491 | ArrowUp on a non-empty history steps back, saturating at the oldest, and shows that entry; ArrowDown from k > 0 shows k - 1, from 0 goes to -1 and clears the box, from -1 does nothing; the index stays in [-1, len - 1] |
| ChatPanel.ChatInput.Send | mockup-app/src/Frame5.jsx:726-735 | a blank box or a pending request is ignored; otherwise the trimmed text goes to the history and the chat, the index resets to -1 and the box is cleared |
| ChatPanel.PersistedHistory | mockup-app/src/Frame5.jsx:503-506 | the saved history is the last min(50, len) messages |
| ChatPanel.PersistIdempotent | mockup-app/src/Frame5.jsx:504 | re-saving a saved history keeps it |
| ChatPanel.UpPresses | mockup-app/src/Frame5.jsx:475-479 | n presses of ArrowUp move n steps back, stopping at the oldest entry |
| ChatPanel.UpRecallsNthLatest | mockup-app/src/Frame5.jsx:475-479 | from a fresh box, the n-th ArrowUp shows the n-th most recent message, or the oldest |
| ChatPanel.DownPresses | mockup-app/src/Frame5.jsx:480-490 | n presses of ArrowDown move n steps forward, stopping at -1 |
| ChatPanel.UpThenDown | mockup-app/src/Frame5.jsx:474-491 | equally many ArrowDown presses undo ArrowUp presses that did not saturate |
| ChatPanel.UpThenDownRestores | mockup-app/src/Frame5.jsx:474-491 | ArrowUp then ArrowDown restores the index and shows the previous entry, or an empty box |
| ChatPanel.MusicPagingShowsTracks | mockup-app/src/Frame5.jsx:1174-1195 | the music list's buttons always land on a page that has tracks |
| HomeFeed.MovesStayInFeed | mockup-app/src/Home.jsx:40-43 | both wheel moves (`Previous`, `Following`) keep the index in the feed and move it at most one step |
| HomeFeed.Feed.constructor | mockup-app/src/Home.jsx:17-18 | the feed starts at the first item, unthrottled |
| HomeFeed.Feed.CurrentItem | mockup-app/src/Home.jsx:22 | the item on screen is an item of the feed |
| HomeFeed.Feed.NextItem | mockup-app/src/Home.jsx:23 | the next item is undefined exactly on the last item |
| HomeFeed.Feed.HandleWheel | mockup-app/src/Home.jsx:31-45 | throttled events change nothing; otherwise the flag goes up, even for deltaY 0; deltaY > 0 goes to the previous item and deltaY < 0 to the next; the index stays in range |
| HomeFeed.Feed.SelectDot | mockup-app/src/Home.jsx:121-125 | clicking dot i shows item i |
| HomeFeed.Feed.ThrottleExpired | mockup-app/src/Home.jsx:36 | the timer lowers the flag and leaves the index |
| HomeFeed.WheelTwice | mockup-app/src/Home.jsx:31-45 | two events without the timer in between move at most one item |
| VideoGrid.VideoRows | mockup-app/src/Frame3.jsx:45-51 | as many rows as `totalPages`; row r is page r; the rows laid end to end give back the videos; every row has 1 or 2 items and all but the last have exactly 2 |
| VideoGrid.ScreenRows | mockup-app/src/Frame3.jsx:45-51 | the screen's eight videos make four rows of two |
| VideoGrid.PageDots | mockup-app/src/Frame3.jsx:104-108 | `totalPages` dots, dot i for page i |
| VideoGrid.Paginator.constructor | mockup-app/src/Frame3.jsx:43 | the grid starts on page 0 |
| VideoGrid.Paginator.GoToPage | mockup-app/src/Frame3.jsx:65-66 | `goToPage(i)` sets the page to i |
| VideoGrid.ClickDot | mockup-app/src/Frame3.jsx:104-108 | clicking any dot selects a page that has a row |

## Left out

- Remote services: the Anthropic and MCP SDKs, SSE transport, the Google GenAI client and the Audius API are oracles. `JSON.parse` is an oracle, and so is `JSON.stringify` of tool content (`Serialized` stands for its output).
- A tool result whose `content` is not an array, and a parsed value that is an array or a primitive, are reduced to the cases the five branches read. No other property of them is modelled.
- ChatLoop.RunLoop: the model's replies are a finite script of which some reply stops the loop. The app has no iteration cap, and a model that always asks for tools never ends.
- The app closes the MCP client only on the normal path. A failure after connecting leaves it open. This is modelled as written.
- The NFT route beyond `slugsToFetch` is not modelled: fetching, stock images and the response.
- `/api/tools` and the health endpoints are not modelled.
- VEED generation and its `veedInitializing` flag are not modelled. VEED's service file is not part of this model.
- Timers (`setTimeout`, `setInterval` polling), `AbortController` and the React effect scheduling are not modelled. The throttle reset is the `ThrottleExpired` method.
- Clocks (`Date.now()`) are parameters.
- Floating point: audio progress and the scroll geometry of `handleScroll`/`goToPage`. So are non-integer durations.
- Unicode: UTF-16 length, non-ASCII case mapping and URL encoding of query strings are not modelled.
- MOCK_NFTS lookups of inherited `Object.prototype` keys (a slug such as `constructor`) are not modelled.
- OpenSeaPanel.Deduplicate: keys are compared structurally. A JS `Set` compares objects by identity, so two equal object keys would both be kept.
- OpenSeaPanel.LoadNfts: any nullish element makes the whole load keep the old list. JS would throw at the first nullish element, after keying the ones before it, with the same visible outcome.
- OpenSeaPanel.Tag: spreading a string or an array into the tagged object, which copies its indexed characters, is not modelled. Only objects spread their fields.
- VeoJobs.VeoOperations.Generate: thrown values that are not objects, and a request body that is itself undefined, are not modelled.
- VeoJobs.VeoOperations.Status: a thrown `null` or `undefined` makes the catch block's `error.message` throw again, so no response is sent; the model answers 500 with `undefined` instead.
- VeoJobs.VeoOperations.Status: a poll is atomic. In the app the poll awaits the service between reading the map and deleting the entry, and the page polls every 5 seconds whether or not the previous poll answered, so two overlapping polls of one id can both answer completed. VeoJobs.PollAfterCompletion holds only for polls that do not overlap.
- ChatActions.ActionAt: `parseInt` of the number yields a double, which rounds integers above 2^53; the model keeps the exact integer.
- ChatLoop.Chat: a rejected `mcpClient.close()` inside the try block turns a finished loop into a 500; the model has no close outcome, so closing always succeeds.
- ServerRoutes.ArtworkUrl: a nullish track is read as a track with no artwork and gives `null`. In the app, reading `track.artwork` on it throws inside `data.data.map`, and the trending route answers 500.
- ServerRoutes.TrendingSlugs: negative limits are covered only by the `NegativeLimitCountsFromEnd` example.
- localStorage reads and writes are not modelled. Only the last-50 rule is kept, and the saved history is assumed to parse as a list of strings.
- ChatPanel.ChatInput.Send: what happens after the request is sent is not modelled. That covers the fetch to `/api/chat`, appending the reply, `LOAD_COLLECTION` actions, received NFTs and abort handling.
- `collectionPills` (Frame5.jsx:168-171) is display-only and not modelled. Nor are rendering, IntersectionObserver and audio element control.
- `getNFTsByContract`, `getNFT` and `getPopularPFPs` in opensea.js are not called by the modelled screens and are not modelled. The first two share the `BASE_URL` defect below.
- `App.jsx` and `Frame2.jsx` are static routing and markup.

## Findings

| source | as written | input that shows it | evidently intended | confidence | as-written member | corrected member |
|---|---|---|---|---|---|---|
| mockup-app/src/services/opensea.js:104-121 | the request URL reads `BASE_URL` and `headers`, which are never declared; the ReferenceError is caught and the search always returns `[]` | query "azu" with a listing that holds `{name: "Azuki"}` gives `[]` | fetch the collections and keep those whose name or slug contains the query, ignoring case, at most `limit` of them | not executed | OpenSeaClient.SearchAsWrittenMissesMatches | OpenSeaClient.SearchResultsMatch |
