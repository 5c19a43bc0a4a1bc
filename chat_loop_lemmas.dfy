/** What the tool-use loop of the chat endpoint promises about the conversation it builds,
    the model calls it makes and the response it gives. */
module ChatLoopFacts {
  import opened Wrappers
  import opened Js
  import opened Json
  import opened ChatTools
  import opened ChatActions
  import opened ChatLoop

  /** Tool results answer tool uses one for one: same ids in the same order, an error flag
      exactly on the error payloads, and serialised content within the size cap. */
  predicate Answers(uses: seq<ToolCall>, results: seq<ToolResult>) {
    && |uses| == |results|
    && forall j :: 0 <= j < |uses| ==>
      && results[j].toolUseId == uses[j].id
      && (results[j].isError <==> results[j].content.ErrorPayload?)
      && (results[j].content.Serialized? ==> |results[j].content.text| <= MaxToolContent + |TruncationMarker|)
  }

  /** Round `i` of `ms`: an assistant turn at `2 * i`, and at `2 * i + 1` the tool results
      that answer its tool uses. */
  predicate RoundAt(ms: seq<Message>, i: nat)
    requires 2 * i + 1 < |ms|
  {
    ms[2 * i].AssistantTurn? && ms[2 * i + 1].ToolResults?
      && Answers(ToolUses(ms[2 * i].content), ms[2 * i + 1].results)
  }

  /** The messages the loop adds: assistant turns, each followed by the tool results that
      answer its tool uses. */
  predicate Paired(ms: seq<Message>) {
    |ms| % 2 == 0 && forall i: nat :: i < |ms| / 2 ==> RoundAt(ms, i)
  }

  /** Every tool result among `ms` is the null-client TypeError. */
  predicate AllNullCallErrors(ms: seq<Message>) {
    forall i, j :: 0 <= i < |ms| && ms[i].ToolResults? && 0 <= j < |ms[i].results| ==>
      ms[i].results[j].isError && ms[i].results[j].content == ErrorPayload(Str(NullCallError))
  }

  /** The results of one round answer its tool uses. */
  lemma RoundAnswers(uses: seq<ToolCall>, o: Oracles, round: nat)
    ensures Answers(uses, RoundResults(uses, o, round))
    ensures !o.client ==> AllNullCallErrors([ToolResults(RoundResults(uses, o, round))])
  {
    var rs := RoundResults(uses, o, round);
    forall j | 0 <= j < |uses|
      ensures rs[j].content.Serialized? ==> |rs[j].content.text| <= MaxToolContent + |TruncationMarker|
    {
      var out := Outcome(o, round, j);
      if out.ToolReturned? {
        TruncateBounded(out.serialized);
      }
    }
  }

  /** One tool round appends an assistant turn and the results that answer it. */
  lemma StepPaired(o: Oracles, r: ModelReply, k: nat, st: LoopState)
    ensures var st1 := Step(o, r, k, st);
      st1.conv[|st.conv|..] == [AssistantTurn(r.content), ToolResults(RoundResults(ToolUses(r.content), o, k))]
      && Answers(ToolUses(r.content), RoundResults(ToolUses(r.content), o, k))
      && (!o.client ==> st1.fetched == st.fetched && AllNullCallErrors(st1.conv[|st.conv|..]))
  {
    RoundAnswers(ToolUses(r.content), o, k);
  }

  /** Joining the messages of one round to those of the rounds after it. */
  lemma PairedCons(ms: seq<Message>, n: nat, m: nat)
    requires n + 2 == m <= |ms|
    requires ms[n].AssistantTurn? && ms[n + 1].ToolResults? && Answers(ToolUses(ms[n].content), ms[n + 1].results)
    requires Paired(ms[m..])
    ensures Paired(ms[n..])
  {
    forall i: nat | i < |ms[n..]| / 2 ensures RoundAt(ms[n..], i) {
      if i == 0 {
        assert ms[n..][0] == ms[n] && ms[n..][1] == ms[n + 1];
      } else {
        assert RoundAt(ms[m..], i - 1);
        assert ms[n..][2 * i] == ms[m..][2 * (i - 1)];
        assert ms[n..][2 * i + 1] == ms[m..][2 * (i - 1) + 1];
      }
    }
  }

  lemma AllNullCallErrorsCons(ms: seq<Message>, n: nat, m: nat)
    requires n <= m <= |ms|
    requires AllNullCallErrors(ms[n..m]) && AllNullCallErrors(ms[m..])
    ensures AllNullCallErrors(ms[n..])
  {
    forall i, j | 0 <= i < |ms[n..]| && ms[n..][i].ToolResults? && 0 <= j < |ms[n..][i].results|
      ensures ms[n..][i].results[j].isError && ms[n..][i].results[j].content == ErrorPayload(Str(NullCallError))
    {
      if n + i < m {
        assert ms[n..][i] == ms[n..m][i];
      } else {
        assert ms[n..][i] == ms[m..][n + i - m];
      }
    }
  }

  /** A tool-use reply makes the loop take one step and go on from the next reply. */
  lemma LoopUnfold(o: Oracles, replies: seq<Result<ModelReply, string>>, k: nat, st: LoopState)
    requires StopsFrom(replies, k) && replies[k].Ok? && replies[k].value.stopReason == ToolUseStop
    ensures StopsFrom(replies, k + 1)
    ensures LoopFrom(o, replies, k, st) == LoopFrom(o, replies, k + 1, Step(o, replies[k].value, k, st))
  {
    StopsLater(replies, k);
  }

  /** The conversation the loop ends with extends the one it started from by paired rounds. */
  lemma {:induction false} LoopConversation(o: Oracles, replies: seq<Result<ModelReply, string>>, k: nat, st: LoopState)
    requires StopsFrom(replies, k)
    ensures var e := LoopFrom(o, replies, k, st).state;
      st.conv <= e.conv && Paired(e.conv[|st.conv|..])
    decreases |replies| - k
  {
    var e := LoopFrom(o, replies, k, st).state;
    if replies[k].Ok? && replies[k].value.stopReason == ToolUseStop {
      var r := replies[k].value;
      LoopUnfold(o, replies, k, st);
      var st1 := Step(o, r, k, st);
      LoopConversation(o, replies, k + 1, st1);
      StepPaired(o, r, k, st);
      var n := |st.conv|;
      assert e.conv[n..n + 2] == st1.conv[n..];
      assert e.conv[n] == st1.conv[n..][0] && e.conv[n + 1] == st1.conv[n..][1];
      PairedCons(e.conv, n, n + 2);
    } else {
      assert e.conv[|st.conv|..] == [];
    }
  }

  /** The loop makes one model call per round, and only appends to the calls made before. */
  lemma {:induction false} LoopCallCount(o: Oracles, replies: seq<Result<ModelReply, string>>, k: nat, st: LoopState)
    requires StopsFrom(replies, k)
    ensures var e := LoopFrom(o, replies, k, st).state;
      st.calls <= e.calls && st.conv <= e.conv && 2 * (|e.calls| - |st.calls|) == |e.conv| - |st.conv|
    decreases |replies| - k
  {
    if replies[k].Ok? && replies[k].value.stopReason == ToolUseStop {
      LoopUnfold(o, replies, k, st);
      var st1 := Step(o, replies[k].value, k, st);
      LoopCallCount(o, replies, k + 1, st1);
    }
  }

  /** Every call the loop makes offers the tools array. */
  lemma {:induction false} LoopCallTools(o: Oracles, replies: seq<Result<ModelReply, string>>, k: nat, st: LoopState)
    requires StopsFrom(replies, k)
    ensures var e := LoopFrom(o, replies, k, st).state;
      st.calls <= e.calls && forall i :: |st.calls| <= i < |e.calls| ==> e.calls[i].tools == Some(o.tools)
    decreases |replies| - k
  {
    if replies[k].Ok? && replies[k].value.stopReason == ToolUseStop {
      LoopUnfold(o, replies, k, st);
      var st1 := Step(o, replies[k].value, k, st);
      LoopCallTools(o, replies, k + 1, st1);
    }
  }

  /** The call that produced the final reply was given the whole conversation. */
  lemma {:induction false} LoopLastCall(o: Oracles, replies: seq<Result<ModelReply, string>>, k: nat, st: LoopState)
    requires StopsFrom(replies, k)
    requires |st.calls| > 0 && st.calls[|st.calls| - 1].messages == st.conv
    ensures var e := LoopFrom(o, replies, k, st).state;
      |e.calls| > 0 && e.calls[|e.calls| - 1].messages == e.conv
    decreases |replies| - k
  {
    if replies[k].Ok? && replies[k].value.stopReason == ToolUseStop {
      LoopUnfold(o, replies, k, st);
      var st1 := Step(o, replies[k].value, k, st);
      assert st1.calls[|st1.calls| - 1] == st1.calls[|st.calls|];
      LoopLastCall(o, replies, k + 1, st1);
    }
  }

  /** Without a client, no round adds records and every tool result is the TypeError. */
  lemma {:induction false} LoopWithoutClient(o: Oracles, replies: seq<Result<ModelReply, string>>, k: nat, st: LoopState)
    requires StopsFrom(replies, k) && !o.client
    ensures var e := LoopFrom(o, replies, k, st).state;
      e.fetched == st.fetched && st.conv <= e.conv && AllNullCallErrors(e.conv[|st.conv|..])
    decreases |replies| - k
  {
    var e := LoopFrom(o, replies, k, st).state;
    if replies[k].Ok? && replies[k].value.stopReason == ToolUseStop {
      var r := replies[k].value;
      LoopUnfold(o, replies, k, st);
      var st1 := Step(o, r, k, st);
      LoopWithoutClient(o, replies, k + 1, st1);
      StepPaired(o, r, k, st);
      var n := |st.conv|;
      assert e.conv[n..n + 2] == st1.conv[n..];
      AllNullCallErrorsCons(e.conv, n, n + 2);
    } else {
      assert e.conv[|st.conv|..] == [];
    }
  }

  /** How the outcome of a request is read off the loop's end. */
  lemma ChatSpecParts(messages: seq<Message>, useMcp: Json, hasToken: bool, setup: McpSetup,
                      replies: seq<Result<ModelReply, string>>, call: (nat, nat) -> ToolOutcome,
                      parse: string -> Option<Json>)
    requires StopsFrom(replies, 0)
    ensures var c := Connect(useMcp, hasToken, setup);
      var e := LoopFrom(Oracles(c.client, c.tools, call, parse), replies, 0, LoopState(messages, [], [FirstCall(c, messages)]));
      var out := ChatSpec(messages, useMcp, hasToken, setup, replies, call, parse);
      && out.calls == e.state.calls
      && (out.response.ChatOk? ==> out.response.nfts == e.state.fetched && (out.response.toolsUsed <==> |e.state.conv| > |messages|))
      && (out.closed ==> c.client)
  {
  }
}
