/** What the chat endpoint promises about one request: the response, the model calls it makes
    and the closing of the tool client. */
module ChatFacts {
  import opened Wrappers
  import opened Js
  import opened Json
  import opened ChatTools
  import opened ChatActions
  import opened ChatLoop
  import opened ChatLoopFacts

  /** The response says tools were used exactly when the first reply asked for tools. */
  lemma ToolsUsedIffFirstReplyAsked(messages: seq<Message>, useMcp: Json, hasToken: bool, setup: McpSetup,
                                    replies: seq<Result<ModelReply, string>>, call: (nat, nat) -> ToolOutcome,
                                    parse: string -> Option<Json>)
    requires StopsFrom(replies, 0)
    requires ChatSpec(messages, useMcp, hasToken, setup, replies, call, parse).response.ChatOk?
    ensures ChatSpec(messages, useMcp, hasToken, setup, replies, call, parse).response.toolsUsed
      <==> replies[0].Ok? && replies[0].value.stopReason == ToolUseStop
  {
    var c := Connect(useMcp, hasToken, setup);
    var o := Oracles(c.client, c.tools, call, parse);
    var st := LoopState(messages, [], [FirstCall(c, messages)]);
    ChatSpecParts(messages, useMcp, hasToken, setup, replies, call, parse);
    if replies[0].Ok? && replies[0].value.stopReason == ToolUseStop {
      StopsLater(replies, 0);
      var st1 := Step(o, replies[0].value, 0, st);
      LoopConversation(o, replies, 1, st1);
      assert LoopFrom(o, replies, 0, st) == LoopFrom(o, replies, 1, st1);
    }
  }

  /** The model calls of a request: the first offers the tools only when there are some, and
      every later one offers the tools array. */
  lemma CallsOfChat(messages: seq<Message>, useMcp: Json, hasToken: bool, setup: McpSetup,
                    replies: seq<Result<ModelReply, string>>, call: (nat, nat) -> ToolOutcome,
                    parse: string -> Option<Json>)
    requires StopsFrom(replies, 0)
    ensures var c := Connect(useMcp, hasToken, setup);
      var calls := Transcript(messages, useMcp, hasToken, setup, replies, call, parse).state.calls;
      && |calls| >= 1
      && calls[0] == ModelCall(if c.tools == [] then None else Some(c.tools), messages)
      && (forall i :: 1 <= i < |calls| ==> calls[i].tools == Some(c.tools))
  {
    var c := Connect(useMcp, hasToken, setup);
    var o := Oracles(c.client, c.tools, call, parse);
    var st := LoopState(messages, [], [FirstCall(c, messages)]);
    LoopCallCount(o, replies, 0, st);
    LoopCallTools(o, replies, 0, st);
  }

  /** The call that produced the final reply was given the client's messages followed by
      paired tool rounds. */
  lemma TranscriptOfChat(messages: seq<Message>, useMcp: Json, hasToken: bool, setup: McpSetup,
                         replies: seq<Result<ModelReply, string>>, call: (nat, nat) -> ToolOutcome,
                         parse: string -> Option<Json>)
    requires StopsFrom(replies, 0)
    ensures var calls := Transcript(messages, useMcp, hasToken, setup, replies, call, parse).state.calls;
      && |calls| >= 1
      && messages <= calls[|calls| - 1].messages
      && Paired(calls[|calls| - 1].messages[|messages|..])
  {
    var c := Connect(useMcp, hasToken, setup);
    var o := Oracles(c.client, c.tools, call, parse);
    var st := LoopState(messages, [], [FirstCall(c, messages)]);
    LoopLastCall(o, replies, 0, st);
    LoopConversation(o, replies, 0, st);
  }

  /** The outcome of a request served without tools: nothing closed, the last call sent the
      request's messages followed only by rounds whose every result is the TypeError, and no
      NFT in the response. */
  predicate ToolsUnavailable(out: ChatOutcome, messages: seq<Message>) {
    && !out.closed
    && |out.calls| >= 1 && |out.calls[|out.calls| - 1].messages| >= |messages|
    && AllNullCallErrors(out.calls[|out.calls| - 1].messages[|messages|..])
    && (out.response.ChatOk? ==> out.response.nfts == [])
  }

  /** Without a tool client (the request disabled it, no token is configured, or connecting
      failed) the model may still ask for tools: every call then fails with the TypeError,
      the model is told so, no NFT is returned, and nothing is closed. */
  lemma NoClientNoNfts(messages: seq<Message>, useMcp: Json, hasToken: bool, setup: McpSetup,
                       replies: seq<Result<ModelReply, string>>, call: (nat, nat) -> ToolOutcome,
                       parse: string -> Option<Json>)
    requires StopsFrom(replies, 0)
    requires !McpEnabled(useMcp, hasToken) || setup.ConnectFailed?
    ensures ToolsUnavailable(ChatSpec(messages, useMcp, hasToken, setup, replies, call, parse), messages)
  {
    var c := Connect(useMcp, hasToken, setup);
    var o := Oracles(c.client, c.tools, call, parse);
    var st := LoopState(messages, [], [FirstCall(c, messages)]);
    ChatSpecParts(messages, useMcp, hasToken, setup, replies, call, parse);
    LoopLastCall(o, replies, 0, st);
    LoopWithoutClient(o, replies, 0, st);
  }
}
