/** The chat endpoint of mockup-app/server/index.js (`POST /api/chat`): optional connection to
    the remote NFT tool service, the model call, the loop that runs the tools the model asks
    for and sends their results back, and the response built from the model's final reply.
    The model's replies, the tool service and `JSON.parse` are parameters: a finite script of
    replies (the source has no bound on the number of rounds, so the script must contain a
    reply that ends the loop), a function from (round, position) to the tool's outcome, and a
    function from text to the parsed value. */
module ChatLoop {
  import opened Wrappers
  import opened Js
  import opened Json
  import opened ChatTools
  import opened ChatActions

  // ---------------------------------------------------------------------------------------
  // Data exchanged with the model

  /** A `tool_use` block: the id the result must quote, the tool and its arguments. */
  datatype ToolCall = ToolCall(id: string, name: string, input: Json)

  /** A content block of a model reply. */
  datatype Block = TextBlock(text: string) | ToolUseBlock(call: ToolCall) | OtherBlock

  datatype ModelReply = ModelReply(stopReason: string, content: seq<Block>)

  /** The `content` of a tool result: the (possibly truncated) serialised tool content, or
      `JSON.stringify({ error: toolError.message })`, kept here as the message itself. */
  datatype ToolContent = Serialized(text: string) | ErrorPayload(message: Json)

  datatype ToolResult = ToolResult(toolUseId: string, content: ToolContent, isError: bool)

  /** A conversation entry: one the client sent, the assistant's tool-calling reply, or the
      user-role message carrying the tool results. */
  datatype Message = ClientMessage(value: Json) | AssistantTurn(content: seq<Block>) | ToolResults(results: seq<ToolResult>)

  /** What one `anthropic.messages.create` call is given besides the fixed model, token limit
      and system prompt: the tools (`None` is `undefined`) and the conversation. */
  datatype ModelCall = ModelCall(tools: Option<seq<ClaudeTool>>, messages: seq<Message>)

  /** What `mcpClient.callTool` does: return content entries (with their `JSON.stringify`),
      or throw with some `message`. */
  datatype ToolOutcome = ToolReturned(items: seq<ContentItem>, serialized: string) | ToolThrew(message: Json)

  /** How connecting to the tool service went, when it is attempted. */
  datatype McpSetup = ConnectFailed | ListFailed | Listed(tools: seq<McpTool>)

  datatype ChatResponse =
    | ChatOk(message: string, toolsUsed: bool, actions: seq<Action>, nfts: seq<NftRecord>, fullResponse: ModelReply)
    | ChatError(status: nat, error: Json)

  const ToolUseStop: string := "tool_use"

  /** The TypeError thrown by `mcpClient.callTool` when there is no client. */
  const NullCallError: string := "Cannot read properties of null (reading 'callTool')"

  // ---------------------------------------------------------------------------------------
  // Reading a reply

  /** `content.filter(block => block.type === 'tool_use')` */
  function ToolUses(content: seq<Block>): (r: seq<ToolCall>)
    ensures |r| <= |content|
    ensures forall i :: 0 <= i < |content| && content[i].ToolUseBlock? ==> content[i].call in r
    ensures forall c :: c in r ==> ToolUseBlock(c) in content
  {
    if content == [] then []
    else
      var rest := ToolUses(content[1..]);
      assert forall i :: 1 <= i < |content| ==> content[i] == content[1..][i - 1];
      if content[0].ToolUseBlock? then [content[0].call] + rest else rest
  }

  /** One block contributes its call when it is a tool use, and nothing otherwise. */
  lemma ToolUsesOne(b: Block)
    ensures ToolUses([b]) == if b.ToolUseBlock? then [b.call] else []
  {
    assert [b][1..] == [];
  }

  /** The filter keeps order and multiplicity: the tool uses of a concatenation are those of
      its first part followed by those of its second. */
  lemma {:induction false} ToolUsesAppend(a: seq<Block>, b: seq<Block>)
    ensures ToolUses(a + b) == ToolUses(a) + ToolUses(b)
    decreases |a|
  {
    if a == [] {
      assert a + b == b;
    } else {
      assert (a + b)[0] == a[0];
      assert (a + b)[1..] == a[1..] + b;
      ToolUsesAppend(a[1..], b);
      if a[0].ToolUseBlock? {
        assert [a[0].call] + (ToolUses(a[1..]) + ToolUses(b)) == ([a[0].call] + ToolUses(a[1..])) + ToolUses(b);
      }
    }
  }

  /** The texts of the text blocks, in order. */
  function Texts(content: seq<Block>): (r: seq<string>)
    ensures |r| <= |content|
    ensures forall t :: t in r ==> TextBlock(t) in content
  {
    if content == [] then []
    else
      var rest := Texts(content[1..]);
      if content[0].TextBlock? then [content[0].text] + rest else rest
  }

  /** The final text: the text blocks joined with newlines. */
  function ReplyText(content: seq<Block>): string {
    Join(Texts(content), "\n")
  }

  // ---------------------------------------------------------------------------------------
  // Connecting to the tool service

  /** `useOpenSeaMCP = true` (the default applies only when the field is absent), and a bearer
      token is configured. */
  predicate McpEnabled(useMcp: Json, hasToken: bool) {
    Truthy(if useMcp == Undefined then Bool(true) else useMcp) && hasToken
  }

  /** Whether `mcpClient` is non-null afterwards, and the model tools. */
  datatype Connection = Connection(client: bool, tools: seq<ClaudeTool>)

  /** The client exists once it was created, even if listing its tools then failed; the
      model is offered tools only when the listing succeeded. */
  function Connect(useMcp: Json, hasToken: bool, setup: McpSetup): (c: Connection)
    ensures c.client <==> McpEnabled(useMcp, hasToken) && !setup.ConnectFailed?
    ensures c.tools != [] ==> c.client && setup.Listed? && |c.tools| == |setup.tools|
    ensures setup.Listed? && McpEnabled(useMcp, hasToken) ==> c.tools == McpToolsToClaudeTools(setup.tools)
  {
    if !McpEnabled(useMcp, hasToken) then Connection(false, [])
    else
      match setup
      case ConnectFailed => Connection(false, [])
      case ListFailed => Connection(true, [])
      case Listed(ts) => Connection(true, McpToolsToClaudeTools(ts))
  }

  // ---------------------------------------------------------------------------------------
  // One round of tool calls

  /** The fixed parts of one request: the connection and the oracles. */
  datatype Oracles = Oracles(
    client: bool, tools: seq<ClaudeTool>,
    call: (nat, nat) -> ToolOutcome, parse: string -> Option<Json>)

  /** The outcome of the `i`-th tool call of round `round`: with no client, calling a method on
      `null` throws. */
  function Outcome(o: Oracles, round: nat, i: nat): (r: ToolOutcome)
    ensures !o.client ==> r == ToolThrew(Str(NullCallError))
  {
    if o.client then o.call(round, i) else ToolThrew(Str(NullCallError))
  }

  /** The tool result answering `u`: it quotes `u`'s id, is an error exactly when the call
      threw, and otherwise carries the serialised content cut to the size cap. */
  function ResultFor(u: ToolCall, out: ToolOutcome): (r: ToolResult)
    ensures r.toolUseId == u.id
    ensures r.isError <==> out.ToolThrew?
    ensures r.isError <==> r.content.ErrorPayload?
    ensures out.ToolReturned? ==> r.content == Serialized(Truncate(out.serialized))
    ensures out.ToolThrew? ==> r.content == ErrorPayload(out.message)
  {
    match out
    case ToolReturned(_, serialized) => ToolResult(u.id, Serialized(Truncate(serialized)), false)
    case ToolThrew(message) => ToolResult(u.id, ErrorPayload(message), true)
  }

  /** The tool results of a round, one per tool use, in order. */
  function RoundResults(uses: seq<ToolCall>, o: Oracles, round: nat): (r: seq<ToolResult>)
    ensures |r| == |uses|
    ensures forall i :: 0 <= i < |uses| ==> r[i] == ResultFor(uses[i], Outcome(o, round, i))
  {
    seq(|uses|, i requires 0 <= i < |uses| => ResultFor(uses[i], Outcome(o, round, i)))
  }

  /** The NFT records accumulated over one outcome: a thrown call adds none. */
  function Absorb(acc: seq<NftRecord>, out: ToolOutcome, parse: string -> Option<Json>): (r: seq<NftRecord>)
    ensures acc <= r
    ensures out.ToolThrew? ==> r == acc
  {
    match out
    case ToolReturned(items, _) => ScanContent(acc, items, parse)
    case ToolThrew(_) => acc
  }

  /** The NFT records after the first `n` tool calls of a round. */
  function RoundRecords(acc: seq<NftRecord>, o: Oracles, round: nat, n: nat): (r: seq<NftRecord>)
    ensures acc <= r
    ensures !o.client ==> r == acc
  {
    if n == 0 then acc else Absorb(RoundRecords(acc, o, round, n - 1), Outcome(o, round, n - 1), o.parse)
  }

  /** The `for (const item of result.content)` scan of one tool result. */
  method ScanToolContent(acc: seq<NftRecord>, items: seq<ContentItem>, parse: string -> Option<Json>)
    returns (fetched: seq<NftRecord>)
    ensures fetched == ScanContent(acc, items, parse)
  {
    fetched := acc;
    for i := 0 to |items|
      invariant ScanContent(fetched, items[i..], parse) == ScanContent(acc, items, parse)
    {
      var item := items[i];
      assert items[i..][1..] == items[i + 1..];
      if item.TextItem? && item.text != [] {
        match parse(item.text) {
          case None =>
          case Some(parsed) => fetched := Normalise(fetched, parsed);
        }
      }
    }
  }

  /** The `for (const toolUse of toolUseBlocks)` loop: one tool call per tool use, in order. */
  method RunToolRound(uses: seq<ToolCall>, o: Oracles, round: nat, acc: seq<NftRecord>)
    returns (results: seq<ToolResult>, fetched: seq<NftRecord>)
    ensures results == RoundResults(uses, o, round)
    ensures fetched == RoundRecords(acc, o, round, |uses|)
  {
    results := [];
    fetched := acc;
    for i := 0 to |uses|
      invariant |results| == i
      invariant forall j :: 0 <= j < i ==> results[j] == ResultFor(uses[j], Outcome(o, round, j))
      invariant fetched == RoundRecords(acc, o, round, i)
    {
      var out := Outcome(o, round, i);
      match out {
        case ToolReturned(items, serialized) =>
          fetched := ScanToolContent(fetched, items, o.parse);
          results := results + [ToolResult(uses[i].id, Serialized(Truncate(serialized)), false)];
        case ToolThrew(message) =>
          results := results + [ToolResult(uses[i].id, ErrorPayload(message), true)];
      }
    }
  }

  // ---------------------------------------------------------------------------------------
  // The loop over model replies

  /** A reply that ends the loop: the request failed, or the model did not stop for tools. */
  predicate Stops(r: Result<ModelReply, string>) {
    r.Err? || r.value.stopReason != ToolUseStop
  }

  predicate StopsFrom(replies: seq<Result<ModelReply, string>>, k: nat) {
    exists j :: k <= j < |replies| && Stops(replies[j])
  }

  lemma StopsLater(replies: seq<Result<ModelReply, string>>, k: nat)
    requires StopsFrom(replies, k) && k < |replies| && !Stops(replies[k])
    ensures StopsFrom(replies, k + 1)
  {
    var j :| k <= j < |replies| && Stops(replies[j]);
    assert j != k;
  }

  /** The conversation, the NFT records and the model calls made so far. */
  datatype LoopState = LoopState(conv: seq<Message>, fetched: seq<NftRecord>, calls: seq<ModelCall>)

  /** One tool round after reply `reply`: the assistant turn and the tool results are appended
      and the conversation is sent to the model again, now always with `tools`. */
  function Step(o: Oracles, reply: ModelReply, round: nat, st: LoopState): (r: LoopState)
    ensures |r.conv| == |st.conv| + 2 && r.conv[..|st.conv|] == st.conv
    ensures |r.calls| == |st.calls| + 1 && r.calls[..|st.calls|] == st.calls
    ensures r.calls[|st.calls|] == ModelCall(Some(o.tools), r.conv)
  {
    var uses := ToolUses(reply.content);
    var conv := st.conv + [AssistantTurn(reply.content), ToolResults(RoundResults(uses, o, round))];
    LoopState(conv, RoundRecords(st.fetched, o, round, |uses|), st.calls + [ModelCall(Some(o.tools), conv)])
  }

  datatype LoopEnd = Finished(reply: ModelReply, state: LoopState) | Failed(message: string, state: LoopState)

  /** The loop from reply `k` on. */
  function LoopFrom(o: Oracles, replies: seq<Result<ModelReply, string>>, k: nat, st: LoopState): LoopEnd
    requires StopsFrom(replies, k)
    decreases |replies| - k
  {
    match replies[k]
    case Err(m) => Failed(m, st)
    case Ok(r) =>
      if r.stopReason != ToolUseStop then Finished(r, st)
      else
        StopsLater(replies, k);
        LoopFrom(o, replies, k + 1, Step(o, r, k, st))
  }

  /** The request's outcome: the response, the model calls made, and whether the tool client
      was closed. */
  datatype ChatOutcome = ChatOutcome(response: ChatResponse, calls: seq<ModelCall>, closed: bool)

  /** The first call offers the tools only when there are some. */
  function FirstCall(c: Connection, messages: seq<Message>): ModelCall {
    ModelCall(if |c.tools| > 0 then Some(c.tools) else None, messages)
  }

  /** The whole endpoint. A failed model call is answered with status 500 and skips closing
      the client; otherwise the client is closed, the reply's text is scanned for directives
      and shown without them, and tools count as used when the conversation grew. */
  function ChatSpec(messages: seq<Message>, useMcp: Json, hasToken: bool, setup: McpSetup,
                    replies: seq<Result<ModelReply, string>>, call: (nat, nat) -> ToolOutcome,
                    parse: string -> Option<Json>): ChatOutcome
    requires StopsFrom(replies, 0)
  {
    match Transcript(messages, useMcp, hasToken, setup, replies, call, parse)
    case Failed(m, st) => ChatOutcome(ChatError(500, Str(m)), st.calls, false)
    case Finished(r, st) => ChatOutcome(Answer(messages, r, st), st.calls, Connect(useMcp, hasToken, setup).client)
  }

  /** The loop phase of a request: connecting, then model calls and tool rounds until a reply
      ends the loop. */
  function Transcript(messages: seq<Message>, useMcp: Json, hasToken: bool, setup: McpSetup,
                      replies: seq<Result<ModelReply, string>>, call: (nat, nat) -> ToolOutcome,
                      parse: string -> Option<Json>): LoopEnd
    requires StopsFrom(replies, 0)
  {
    var c := Connect(useMcp, hasToken, setup);
    LoopFrom(Oracles(c.client, c.tools, call, parse), replies, 0, LoopState(messages, [], [FirstCall(c, messages)]))
  }

  /** The success response: the reply's text without its directives, the directives, whether
      the conversation grew, and the NFT records the tools produced. */
  function Answer(messages: seq<Message>, reply: ModelReply, st: LoopState): ChatResponse {
    var text := ReplyText(reply.content);
    ChatOk(DisplayedText(text), |st.conv| > |messages|, ActionsFrom(text, 0), st.fetched, reply)
  }

  /** The `while (currentResponse.stop_reason === 'tool_use')` loop, from the first reply on. */
  method RunLoop(o: Oracles, replies: seq<Result<ModelReply, string>>, start: LoopState)
    returns (end: LoopEnd)
    requires StopsFrom(replies, 0)
    ensures end == LoopFrom(o, replies, 0, start)
  {
    var conv, fetched, calls := start.conv, start.fetched, start.calls;
    var k := 0;
    var current := replies[0];
    while current.Ok? && current.value.stopReason == ToolUseStop
      invariant StopsFrom(replies, k) && k < |replies| && current == replies[k]
      invariant LoopFrom(o, replies, k, LoopState(conv, fetched, calls)) == LoopFrom(o, replies, 0, start)
      decreases |replies| - k
    {
      ghost var before := LoopState(conv, fetched, calls);
      var reply := current.value;
      var uses := ToolUses(reply.content);
      conv := conv + [AssistantTurn(reply.content)];
      var results;
      results, fetched := RunToolRound(uses, o, k, fetched);
      conv := conv + [ToolResults(results)];
      assert conv == before.conv + [AssistantTurn(reply.content), ToolResults(results)];
      calls := calls + [ModelCall(Some(o.tools), conv)];
      assert LoopState(conv, fetched, calls) == Step(o, reply, k, before);
      StopsLater(replies, k);
      k := k + 1;
      current := replies[k];
    }
    match current {
      case Err(m) => end := Failed(m, LoopState(conv, fetched, calls));
      case Ok(reply) => end := Finished(reply, LoopState(conv, fetched, calls));
    }
  }

  /** The endpoint as the source runs it, step by step. */
  method Chat(messages: seq<Message>, useMcp: Json, hasToken: bool, setup: McpSetup,
              replies: seq<Result<ModelReply, string>>, call: (nat, nat) -> ToolOutcome,
              parse: string -> Option<Json>)
    returns (response: ChatResponse, calls: seq<ModelCall>, closed: bool)
    requires StopsFrom(replies, 0)
    ensures ChatOutcome(response, calls, closed) == ChatSpec(messages, useMcp, hasToken, setup, replies, call, parse)
    ensures closed ==> response.ChatOk?
    ensures response.ChatError? ==> response.status == 500
  {
    var conn := Connect(useMcp, hasToken, setup);
    var o := Oracles(conn.client, conn.tools, call, parse);
    var end := RunLoop(o, replies, LoopState(messages, [], [FirstCall(conn, messages)]));
    calls := end.state.calls;
    match end {
      case Failed(m, _) =>
        response := ChatError(500, Str(m));
        closed := false;
      case Finished(reply, st) =>
        closed := conn.client;
        var text := ReplyText(reply.content);
        var actions := ParseActions(text);
        response := ChatOk(DisplayedText(text), |st.conv| > |messages|, actions, st.fetched, reply);
        assert response == Answer(messages, reply, st);
    }
  }
}
