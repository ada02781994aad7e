/** Properties of one conversation turn: what it appends and in which order,
    what survives a failed request, the shape of both requests, the
    tool-message links, and the exit test of the main loop. */
module TurnProperties {
  import opened Wrappers
  import opened Text
  import opened Tools
  import opened Agent
  import opened Seqs

  // ---------- Message layout ----------

  /** On the tool path the history is the user message, the assistant
      message carrying the calls, the tool messages, and the final assistant
      message only when the follow-up succeeds. */
  lemma ToolPathHistory(env: Env, history: seq<Message>, store: seq<string>, u: string, first: Exchange, second: Exchange)
    requires ChatCompletion(first).Success? && WantsTools(ChatCompletion(first).value)
    ensures var reply := ChatCompletion(first).value;
      var calls := reply.toolCalls.value;
      var run := ExecuteCalls(calls, store, env);
      var h2 := history + [User(u), AssistantToolCalls(reply.content.GetOr(""), calls)] + run.outputs;
      var o := Turn(env, history, store, u, first, second);
      && o.store == run.stores[|calls|]
      && o.requests == [ProposeRequest(env, history + [User(u)]), FinalizeRequest(env, h2)]
      && (ChatCompletion(second).Failure? ==> o.history == h2 && o.result == Failure(ChatCompletion(second).error))
      && (ChatCompletion(second).Success? ==>
          var shown := ChatCompletion(second).value.content.GetOr("(no response)");
          o.history == h2 + [Assistant(shown)] && o.result == Success(shown))
  {
    var reply := ChatCompletion(first).value;
    assert history + [User(u)] + [AssistantToolCalls(reply.content.GetOr(""), reply.toolCalls.value)]
        == history + [User(u), AssistantToolCalls(reply.content.GetOr(""), reply.toolCalls.value)];
  }

  /** The system prompt keeps index 0 and every earlier message is kept. */
  lemma TurnKeepsEarlierMessages(env: Env, history: seq<Message>, store: seq<string>, u: string, first: Exchange, second: Exchange)
    requires |history| > 0 && history[0].System?
    ensures var o := Turn(env, history, store, u, first, second);
      && o.history[0] == history[0]
      && forall i :: 0 <= i < |history| ==> o.history[i] == history[i]
  {
    var o := Turn(env, history, store, u, first, second);
    assert forall i :: 0 <= i < |history| ==> o.history[..|history|][i] == o.history[i];
  }

  /** Without tool calls a turn appends exactly the user message and one
      assistant message holding the reply's content, or the placeholder
      when the reply has no `content` field. */
  lemma NoToolTurn(env: Env, history: seq<Message>, store: seq<string>, u: string, first: Exchange, second: Exchange)
    requires ChatCompletion(first).Success? && !WantsTools(ChatCompletion(first).value)
    ensures var content := ChatCompletion(first).value.content;
      var shown := if content.Some? then content.value else "(no response)";
      var o := Turn(env, history, store, u, first, second);
      && o.history == history + [User(u), Assistant(shown)]
      && o.result == Success(shown)
      && o.store == store
      && |o.requests| == 1
  {
    assert history + [User(u)] + [Assistant(ChatCompletion(first).value.content.GetOr(NoResponse))]
        == history + [User(u), Assistant(ChatCompletion(first).value.content.GetOr(NoResponse))];
  }

  /** The placeholder stands in only for an absent `content`: an empty one is kept as it is. */
  lemma EmptyContentIsNotReplaced(env: Env, history: seq<Message>, store: seq<string>, u: string, first: Exchange, second: Exchange)
    requires first.HttpResponse? && first.status < 400 && first.body == Completion(Some(""), None)
    ensures Turn(env, history, store, u, first, second).history == history + [User(u), Assistant("")]
  {
    NoToolTurn(env, history, store, u, first, second);
  }

  /** With K tool calls and a successful follow-up a turn appends K + 3
      messages: the user message, the assistant message carrying the calls
      as returned (content `""` when absent), the K tool messages in request
      order, and the final assistant message. */
  lemma ToolTurnLayout(env: Env, history: seq<Message>, store: seq<string>, u: string, first: Exchange, second: Exchange)
    requires ChatCompletion(first).Success? && WantsTools(ChatCompletion(first).value)
    requires ChatCompletion(second).Success?
    ensures var reply := ChatCompletion(first).value;
      var calls := reply.toolCalls.value;
      var n := |history|;
      var shown := ChatCompletion(second).value.content.GetOr("(no response)");
      var o := Turn(env, history, store, u, first, second);
      && |o.history| == n + |calls| + 3
      && o.history[n] == User(u)
      && o.history[n + 1] == AssistantToolCalls(reply.content.GetOr(""), calls)
      && (forall i :: n + 2 <= i < n + 2 + |calls| ==> o.history[i].ToolResult?)
      && o.history[n + 2 + |calls|] == Assistant(shown)
      && o.result == Success(shown)
      && |o.requests| == 2
  {
    ToolPathHistory(env, history, store, u, first, second);
  }

  /** The i-th tool message answers the i-th call: its `tool_call_id` is the
      call's id (`"tool_1"` when absent), its name is the requested name and
      its content is what dispatch returned, run on the notes store the
      earlier calls left. This holds whether or not the follow-up succeeds. */
  lemma ToolMessagesAnswerCalls(env: Env, history: seq<Message>, store: seq<string>, u: string, first: Exchange, second: Exchange, i: nat)
    requires ChatCompletion(first).Success? && WantsTools(ChatCompletion(first).value)
    requires i < |ChatCompletion(first).value.toolCalls.value|
    ensures var c := ChatCompletion(first).value.toolCalls.value[i];
      var run := ExecuteCalls(ChatCompletion(first).value.toolCalls.value, store, env);
      var o := Turn(env, history, store, u, first, second);
      && |history| + 2 + i < |o.history|
      && o.history[|history| + 2 + i].ToolResult?
      && o.history[|history| + 2 + i].toolCallId == (if c.id.Some? then c.id.value else "tool_1")
      && o.history[|history| + 2 + i].name == c.name
      && o.history[|history| + 2 + i].content
         == CallTool(c.name, CallArguments(c, env.parse), run.stores[i], env.evaluate).text
  {
    var calls := ChatCompletion(first).value.toolCalls.value;
    var run := ExecuteCalls(calls, store, env);
    ToolMessageAt(env, history, store, u, first, second, i);
    assert Answers(calls, run, i, env);
  }

  /** The i-th tool message of the turn is the i-th output of running the calls. */
  lemma ToolMessageAt(env: Env, history: seq<Message>, store: seq<string>, u: string, first: Exchange, second: Exchange, i: nat)
    requires ChatCompletion(first).Success? && WantsTools(ChatCompletion(first).value)
    requires i < |ChatCompletion(first).value.toolCalls.value|
    ensures var run := ExecuteCalls(ChatCompletion(first).value.toolCalls.value, store, env);
      var o := Turn(env, history, store, u, first, second);
      |history| + 2 + i < |o.history| && o.history[|history| + 2 + i] == run.outputs[i]
  {
    var reply := ChatCompletion(first).value;
    var calls := reply.toolCalls.value;
    var run := ExecuteCalls(calls, store, env);
    ToolRoundHistory(env, history, store, u, first, second);
    IndexPastPrefix(history + [User(u)] + [AssistantToolCalls(reply.content.GetOr(""), calls)], run.outputs, FinalMessages(second), i);
  }

  /** A call whose `arguments` text does not decode is still answered, with
      the handler run on an empty argument map, and the turn goes on. */
  lemma UndecodableArgumentsStillAnswered(env: Env, history: seq<Message>, store: seq<string>, u: string, first: Exchange, second: Exchange, i: nat)
    requires ChatCompletion(first).Success? && WantsTools(ChatCompletion(first).value)
    requires i < |ChatCompletion(first).value.toolCalls.value|
    requires var c := ChatCompletion(first).value.toolCalls.value[i];
      c.arguments.Some? && env.parse(c.arguments.value).None?
    ensures var c := ChatCompletion(first).value.toolCalls.value[i];
      var run := ExecuteCalls(ChatCompletion(first).value.toolCalls.value, store, env);
      Turn(env, history, store, u, first, second).history[|history| + 2 + i].content
        == CallTool(c.name, map[], run.stores[i], env.evaluate).text
  {
    ToolMessagesAnswerCalls(env, history, store, u, first, second, i);
  }

  /** A call without `arguments` is dispatched with whatever `"{}"` decodes to. */
  lemma MissingArgumentsDecodeEmptyObject(c: ToolCall, parse: string -> Option<Args>)
    requires c.arguments.None? && parse("{}") == Some(map[])
    ensures CallArguments(c, parse) == map[]
  {
  }

  /** The calculator call of `CalculatorRoundTrip` is answered `4` and leaves the store alone. */
  lemma CalculatorCallAnswered(env: Env, store: seq<string>)
    requires env.parse("{\"expression\": \"2+2\"}") == Some(map["expression" := Str("2+2")])
    requires env.evaluate("2+2") == Evaluated("4")
    ensures Dispatch(ToolCall(Some("call_0"), "misco_calculator", Some("{\"expression\": \"2+2\"}")), store, env)
         == ToolReply("4", store)
  {
    var args := map["expression" := Str("2+2")];
    StripOfTrimmed("2+2");
    assert ExpressionOf(args) == "2+2";
    assert Admitted(args);
  }

  /** A calculator round trip: asked `2+2`, the model calls the calculator,
      the tool answers `4`, and the follow-up's answer closes the turn; four
      messages are appended in that order. */
  lemma CalculatorRoundTrip(env: Env, history: seq<Message>, store: seq<string>, first: Exchange, second: Exchange)
    requires env.parse("{\"expression\": \"2+2\"}") == Some(map["expression" := Str("2+2")])
    requires env.evaluate("2+2") == Evaluated("4")
    requires ChatCompletion(first) == Success(Completion(None, Some([
      ToolCall(Some("call_0"), "misco_calculator", Some("{\"expression\": \"2+2\"}"))])))
    requires ChatCompletion(second) == Success(Completion(Some("2+2 is 4."), None))
    ensures var call := ToolCall(Some("call_0"), "misco_calculator", Some("{\"expression\": \"2+2\"}"));
      var o := Turn(env, history, store, "what is 2+2?", first, second);
      && o.history == history + [
           User("what is 2+2?"),
           AssistantToolCalls("", [call]),
           ToolResult("call_0", "misco_calculator", "4"),
           Assistant("2+2 is 4.")]
      && o.store == store
  {
    var call := ToolCall(Some("call_0"), "misco_calculator", Some("{\"expression\": \"2+2\"}"));
    CalculatorCallAnswered(env, store);
    ToolPathHistory(env, history, store, "what is 2+2?", first, second);
    var run := ExecuteCalls([call], store, env);
    assert Answers([call], run, 0, env);
    assert run.outputs == [ToolResult("call_0", "misco_calculator", "4")];
    var u := User("what is 2+2?");
    var a := AssistantToolCalls("", [call]);
    var t := ToolResult("call_0", "misco_calculator", "4");
    var f := Assistant("2+2 is 4.");
    AppendSingles(history, u, a, t, f);
  }

  // ---------- Failed requests ----------

  /** If the first request fails the turn raises its error and leaves only
      the user message behind: no assistant message, no tool run. */
  lemma FirstCallFailure(env: Env, history: seq<Message>, store: seq<string>, u: string, first: Exchange, second: Exchange)
    requires first.TransportFailure? || first.status >= 400
    ensures var o := Turn(env, history, store, u, first, second);
      && o.history == history + [User(u)]
      && o.store == store
      && o.result.Failure?
      && forall i :: |history| <= i < |o.history| ==> !o.history[i].Assistant? && !o.history[i].AssistantToolCalls?
  {
  }

  /** If the follow-up request fails the history ends with the assistant
      message carrying the calls and the tool messages, with no final
      assistant message; the notes the tools saved stay saved. */
  lemma SecondCallFailure(env: Env, history: seq<Message>, store: seq<string>, u: string, first: Exchange, second: Exchange)
    requires ChatCompletion(first).Success? && WantsTools(ChatCompletion(first).value)
    requires second.TransportFailure? || second.status >= 400
    ensures var reply := ChatCompletion(first).value;
      var calls := reply.toolCalls.value;
      var run := ExecuteCalls(calls, store, env);
      var o := Turn(env, history, store, u, first, second);
      && o.history == history + [User(u), AssistantToolCalls(reply.content.GetOr(""), calls)] + run.outputs
      && o.history[|o.history| - 1].ToolResult?
      && o.store == run.stores[|calls|]
      && o.result.Failure?
  {
    ToolPathHistory(env, history, store, u, first, second);
  }

  // ---------- Requests ----------

  /** The first request carries the history up to the user message, the
      catalog and `tool_choice` `"auto"`; the follow-up carries only the
      model, the history up to the last tool message and the temperature. */
  lemma RequestShapes(env: Env, history: seq<Message>, store: seq<string>, u: string, first: Exchange, second: Exchange)
    ensures var o := Turn(env, history, store, u, first, second);
      && o.requests[0].model == env.model
      && o.requests[0].messages == history + [User(u)]
      && o.requests[0].temperature == 0.4
      && o.requests[0].tools == Some(ToolsSchema())
      && o.requests[0].toolChoice == Some("auto")
      && (|o.requests| == 2 <==> ChatCompletion(first).Success? && WantsTools(ChatCompletion(first).value))
      && (|o.requests| == 2 ==>
          && o.requests[1].model == env.model
          && o.requests[1].temperature == 0.4
          && o.requests[1].tools.None?
          && o.requests[1].toolChoice.None?
          && |o.requests[1].messages| == |history| + 2 + |ChatCompletion(first).value.toolCalls.value|
          && o.requests[1].messages <= o.history)
  {
  }

  // ---------- Tool-message links ----------

  /** `m` is an assistant message that requested a call with id `id`. */
  predicate Requests(m: Message, id: string) {
    m.AssistantToolCalls? && exists i :: 0 <= i < |m.calls| && m.calls[i].id == Some(id)
  }

  /** If `h[j]` is a tool message, it answers a call some earlier assistant
      message made. */
  predicate LinkedAt(h: seq<Message>, j: int)
    requires 0 <= j < |h|
  {
    h[j].ToolResult? ==> exists k :: 0 <= k < j && Requests(h[k], h[j].toolCallId)
  }

  /** Every tool message answers a call some earlier assistant message made. */
  predicate ToolResultsLinked(h: seq<Message>) {
    forall j {:trigger LinkedAt(h, j)} :: 0 <= j < |h| ==> LinkedAt(h, j)
  }

  /** Every tool call the first answer carries has an id. */
  predicate CallsCarryIds(first: Exchange) {
    first.HttpResponse? && first.body.toolCalls.Some? ==>
      forall i :: 0 <= i < |first.body.toolCalls.value| ==> first.body.toolCalls.value[i].id.Some?
  }

  /** Appending messages that include no tool message keeps the links. */
  lemma AppendPlainKeepsLinks(h: seq<Message>, tail: seq<Message>)
    requires ToolResultsLinked(h)
    requires forall i :: 0 <= i < |tail| ==> !tail[i].ToolResult?
    ensures ToolResultsLinked(h + tail)
  {
    var p := h + tail;
    forall j | 0 <= j < |p|
      ensures LinkedAt(p, j)
    {
      if p[j].ToolResult? {
        assert p[j] == h[j] && LinkedAt(h, j);
        var k :| 0 <= k < j && Requests(h[k], h[j].toolCallId);
        assert p[k] == h[k];
      }
    }
  }

  /** Appending a user message, an assistant message requesting `calls`,
      one tool message per call answering that call's id, and then no
      further tool message keeps the links. */
  lemma AppendToolRoundKeepsLinks(h: seq<Message>, u: string, content: string, calls: seq<ToolCall>, outputs: seq<Message>, tail: seq<Message>)
    requires ToolResultsLinked(h)
    requires |outputs| == |calls|
    requires forall i :: 0 <= i < |calls| ==> outputs[i].ToolResult? && calls[i].id == Some(outputs[i].toolCallId)
    requires forall i :: 0 <= i < |tail| ==> !tail[i].ToolResult?
    ensures ToolResultsLinked(h + [User(u)] + [AssistantToolCalls(content, calls)] + outputs + tail)
  {
    var p := h + [User(u)] + [AssistantToolCalls(content, calls)] + outputs + tail;
    var n := |h|;
    assert p[n] == User(u) && p[n + 1] == AssistantToolCalls(content, calls);
    assert forall j :: n + 2 + |calls| <= j < |p| ==> p[j] == tail[j - n - 2 - |calls|];
    forall j | 0 <= j < |p|
      ensures LinkedAt(p, j)
    {
      if p[j].ToolResult? {
        if j < n {
          assert p[j] == h[j] && LinkedAt(h, j);
          var k :| 0 <= k < j && Requests(h[k], h[j].toolCallId);
          assert p[k] == h[k];
        } else {
          var i := j - n - 2;
          assert p[j] == outputs[i];
          assert Requests(p[n + 1], p[j].toolCallId);
        }
      }
    }
  }

  /** When the endpoint gives every call an id, a turn keeps each tool
      message tied to the assistant message that requested it. */
  lemma TurnKeepsToolResultsLinked(env: Env, history: seq<Message>, store: seq<string>, u: string, first: Exchange, second: Exchange)
    requires ToolResultsLinked(history)
    requires CallsCarryIds(first)
    ensures ToolResultsLinked(Turn(env, history, store, u, first, second).history)
  {
    if ChatCompletion(first).Failure? {
      PlainTurnKeepsLinks(env, history, store, u, first, second);
    } else if !WantsTools(ChatCompletion(first).value) {
      PlainTurnKeepsLinks(env, history, store, u, first, second);
    } else {
      ToolRoundKeepsLinks(env, history, store, u, first, second);
    }
  }

  lemma PlainTurnKeepsLinks(env: Env, history: seq<Message>, store: seq<string>, u: string, first: Exchange, second: Exchange)
    requires ToolResultsLinked(history)
    requires ChatCompletion(first).Failure? || !WantsTools(ChatCompletion(first).value)
    ensures ToolResultsLinked(Turn(env, history, store, u, first, second).history)
  {
    if ChatCompletion(first).Failure? {
      FirstCallFailure(env, history, store, u, first, second);
      AppendPlainKeepsLinks(history, [User(u)]);
    } else {
      NoToolTurn(env, history, store, u, first, second);
      var shown := ChatCompletion(first).value.content.GetOr(NoResponse);
      AppendPlainKeepsLinks(history, [User(u), Assistant(shown)]);
    }
  }

  lemma ToolRoundKeepsLinks(env: Env, history: seq<Message>, store: seq<string>, u: string, first: Exchange, second: Exchange)
    requires ToolResultsLinked(history)
    requires CallsCarryIds(first)
    requires ChatCompletion(first).Success? && WantsTools(ChatCompletion(first).value)
    ensures ToolResultsLinked(Turn(env, history, store, u, first, second).history)
  {
    var reply := ChatCompletion(first).value;
    var run := ExecuteCalls(reply.toolCalls.value, store, env);
    OutputsCarryCallIds(env, store, first);
    ToolRoundHistory(env, history, store, u, first, second);
    AppendToolRoundKeepsLinks(history, u, reply.content.GetOr(""), reply.toolCalls.value, run.outputs, FinalMessages(second));
  }

  /** When every call carries an id, the i-th tool message carries the i-th call's id. */
  lemma OutputsCarryCallIds(env: Env, store: seq<string>, first: Exchange)
    requires CallsCarryIds(first)
    requires ChatCompletion(first).Success? && WantsTools(ChatCompletion(first).value)
    ensures var calls := ChatCompletion(first).value.toolCalls.value;
      var run := ExecuteCalls(calls, store, env);
      forall i :: 0 <= i < |calls| ==> run.outputs[i].ToolResult? && calls[i].id == Some(run.outputs[i].toolCallId)
  {
    assert ChatCompletion(first).value.toolCalls.value == first.body.toolCalls.value;
  }

  /** What a turn appends after the tool messages: the final assistant
      message when the follow-up succeeds, nothing when it fails. */
  function FinalMessages(second: Exchange): (r: seq<Message>)
    ensures |r| <= 1 && forall i :: 0 <= i < |r| ==> r[i].Assistant?
  {
    match ChatCompletion(second)
    case Failure(_) => []
    case Success(f) => [Assistant(f.content.GetOr(NoResponse))]
  }

  /** The history of a turn on the tool path, in one piece. */
  lemma ToolRoundHistory(env: Env, history: seq<Message>, store: seq<string>, u: string, first: Exchange, second: Exchange)
    requires ChatCompletion(first).Success? && WantsTools(ChatCompletion(first).value)
    ensures var reply := ChatCompletion(first).value;
      var run := ExecuteCalls(reply.toolCalls.value, store, env);
      Turn(env, history, store, u, first, second).history
        == history + [User(u)] + [AssistantToolCalls(reply.content.GetOr(""), reply.toolCalls.value)] + run.outputs + FinalMessages(second)
  {
    var reply := ChatCompletion(first).value;
    var run := ExecuteCalls(reply.toolCalls.value, store, env);
    var h2 := history + [User(u)] + [AssistantToolCalls(reply.content.GetOr(""), reply.toolCalls.value)] + run.outputs;
    var o := Turn(env, history, store, u, first, second);
    match ChatCompletion(second) {
      case Failure(_) =>
        assert o.history == h2;
        assert h2 + FinalMessages(second) == h2;
      case Success(f) =>
        assert o.history == h2 + [Assistant(f.content.GetOr(NoResponse))];
    }
  }

  /** Without an id the link breaks: a call that lacks one is filed under
      `"tool_1"`, and unless some message requested a call with that id
      the history no longer ties every tool message to a request. */
  lemma MissingIdBreaksLink(env: Env, history: seq<Message>, store: seq<string>, u: string, first: Exchange, second: Exchange, i: nat)
    requires ChatCompletion(first).Success? && WantsTools(ChatCompletion(first).value)
    requires i < |ChatCompletion(first).value.toolCalls.value|
    requires ChatCompletion(first).value.toolCalls.value[i].id.None?
    requires var calls := ChatCompletion(first).value.toolCalls.value;
      forall k :: 0 <= k < |calls| ==> calls[k].id != Some("tool_1")
    requires forall k :: 0 <= k < |history| ==> !Requests(history[k], "tool_1")
    ensures !ToolResultsLinked(Turn(env, history, store, u, first, second).history)
  {
    var o := Turn(env, history, store, u, first, second);
    var reply := ChatCompletion(first).value;
    var calls := reply.toolCalls.value;
    var run := ExecuteCalls(calls, store, env);
    ToolRoundHistory(env, history, store, u, first, second);
    ToolMessageAt(env, history, store, u, first, second, i);
    RoundRequestsNothing(history, u, reply.content.GetOr(""), calls, run.outputs, FinalMessages(second), "tool_1");
    assert !LinkedAt(o.history, |history| + 2 + i);
  }

  /** Before the end of a tool round nothing requests an id that neither the
      earlier history nor the round's calls request. */
  lemma RoundRequestsNothing(history: seq<Message>, u: string, content: string, calls: seq<ToolCall>, outputs: seq<Message>, tail: seq<Message>, id: string)
    requires forall k :: 0 <= k < |history| ==> !Requests(history[k], id)
    requires forall k :: 0 <= k < |calls| ==> calls[k].id != Some(id)
    requires forall k :: 0 <= k < |outputs| ==> outputs[k].ToolResult?
    ensures var h := history + [User(u)] + [AssistantToolCalls(content, calls)] + outputs + tail;
      forall k :: 0 <= k < |history| + 2 + |outputs| ==> !Requests(h[k], id)
  {
    var h := history + [User(u)] + [AssistantToolCalls(content, calls)] + outputs + tail;
    var n := |history|;
    forall k | 0 <= k < n + 2 + |outputs|
      ensures !Requests(h[k], id)
    {
      if k < n {
        assert h[k] == history[k];
      } else if k == n + 1 {
        assert h[k] == AssistantToolCalls(content, calls);
      } else if k > n + 1 {
        assert h[k] == outputs[k - n - 2];
      }
    }
  }

  // ---------- Exit command ----------

  /** The exit test ignores surrounding whitespace. */
  lemma ExitIgnoresPadding(w1: string, line: string, w2: string)
    requires AllSpace(w1) && AllSpace(w2)
    ensures IsExitCommand(w1 + line + w2) <==> IsExitCommand(line)
  {
    StripIgnoresPadding(w1, line, w2);
  }

  /** Changing the case of ASCII letters does not change the exit test. */
  lemma ExitIgnoresCase(line: string)
    ensures IsExitCommand(Upper(line)) <==> IsExitCommand(line)
  {
    var s := Strip(line);
    assert Strip(Upper(line)) == Upper(s) by {
      UpperKeepsStrip(line);
    }
    LowerOfUpper(s);
  }

  /** The three keywords end the loop. */
  lemma ExitKeywordsAccepted()
    ensures IsExitCommand("exit") && IsExitCommand("salir") && IsExitCommand("quit")
  {
    StripOfTrimmed("exit");
    StripOfTrimmed("salir");
    StripOfTrimmed("quit");
    assert Lower("exit") == "exit";
    assert Lower("salir") == "salir";
    assert Lower("quit") == "quit";
  }

  /** Capitals and surrounding whitespace do not matter. */
  lemma ExitPaddedCapitals()
    ensures IsExitCommand("  QUIT\n")
  {
    CapitalQuitAccepted();
    assert "  " + "QUIT" + "\n" == "  QUIT\n";
    ExitIgnoresPadding("  ", "QUIT", "\n");
  }

  lemma CapitalQuitAccepted()
    ensures IsExitCommand("QUIT")
  {
    StripOfTrimmed("QUIT");
    assert LowerChar('Q') == 'q' && LowerChar('U') == 'u' && LowerChar('I') == 'i' && LowerChar('T') == 't';
    assert Lower("QUIT") == "quit";
  }

  /** A keyword followed by more words is an ordinary message. */
  lemma ExitNeedsWholeInput()
    ensures !IsExitCommand("exit now")
  {
    StripOfTrimmed("exit now");
    assert |Lower("exit now")| == 8;
  }
}
