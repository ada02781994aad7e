/** The turn orchestration of misco-agent (`misco_turn` and the error rule of
    `chat_completion`). The conversation history is an append-only sequence
    of messages; one turn maps (history, notes store, user text, the
    endpoint's two answers) to a new history and store, the requests it sent
    and what it shows or raises. HTTP, JSON decoding and `eval` are inputs. */
module Agent {
  import opened Wrappers
  import opened Text
  import opened Tools

  /** One tool call as the endpoint returned it. `id` and `arguments` may be
      absent from the wire object. */
  datatype ToolCall = ToolCall(id: Option<string>, name: string, arguments: Option<string>)

  /** One entry of the conversation history. */
  datatype Message =
    | System(content: string)
    | User(content: string)
    | Assistant(content: string)
      /** The assistant message that requested tools; it records the calls as returned. */
    | AssistantToolCalls(content: string, calls: seq<ToolCall>)
    | ToolResult(toolCallId: string, name: string, content: string)

  /** The first choice's `message` of a completion body; an absent
      `choices` or `message` reads as an empty message. `content` and
      `tool_calls` may each be absent. */
  datatype Completion = Completion(content: Option<string>, toolCalls: Option<seq<ToolCall>>)

  /** What one POST to `/chat/completions` came back with: a transport
      failure (including the 60-second timeout) or an HTTP response. */
  datatype Exchange =
    | TransportFailure(message: string)
    | HttpResponse(status: int, text: string, body: Completion)

  /** The JSON payload of one request. */
  datatype Request = Request(
    model: string,
    messages: seq<Message>,
    temperature: real,
    tools: Option<seq<Json>>,
    toolChoice: Option<string>)

  const Temperature: real := 0.4
  const NoResponse := "(no response)"
  const FallbackCallId := "tool_1"

  function Min(a: int, b: int): int {
    if a <= b then a else b
  }

  /** The text `chat_completion` raises for an error status:
      `API error <status>: <first 1000 characters of the body>`. */
  function ApiError(status: nat, text: string): (r: string)
    ensures "API error " <= r
    ensures var body := text[..Min(1000, |text|)];
      && |body| <= 1000 && body <= text
      && |r| >= |body| + 2 && r[|r| - |body| - 2..] == ": " + body
  {
    "API error " + Decimal(status) + ": " + text[..Min(1000, |text|)]
  }

  /** The error text names the status: after `API error ` come decimal
      digits without a leading zero that read back as the status, then
      `: ` and at most the first 1000 characters of the body. */
  lemma ApiErrorNamesStatus(status: nat, text: string)
    ensures exists digits ::
      && ApiError(status, text) == "API error " + digits + ": " + text[..Min(1000, |text|)]
      && (forall i :: 0 <= i < |digits| ==> '0' <= digits[i] <= '9')
      && (|digits| > 1 ==> digits[0] != '0')
      && DecimalValue(digits) == status
  {
    DecimalRoundTrip(status);
  }

  /** The error rule of `chat_completion`: a status of 400 or more raises
      `ApiError`; a transport failure raises its own message; any other
      response is decoded. */
  function ChatCompletion(x: Exchange): (r: Result<Completion, string>)
    ensures r.Failure? <==> x.TransportFailure? || x.status >= 400
    ensures r.Success? ==> r.value == x.body
    ensures x.TransportFailure? ==> r.error == x.message
    ensures x.HttpResponse? && x.status >= 400 ==> r.error == ApiError(x.status, x.text)
  {
    match x
    case TransportFailure(m) => Failure(m)
    case HttpResponse(status, text, body) =>
      if status >= 400 then Failure(ApiError(status, text))
      else Success(body)
  }

  /** The caller-supplied parts of a turn: the model name, the JSON decoder
      for tool arguments (`None` when `json.loads` raises) and `eval`. */
  datatype Env = Env(model: string, parse: string -> Option<Args>, evaluate: string -> EvalResult)

  /** The `tool_call_id` a call's result is filed under. */
  function CallId(c: ToolCall): (id: string)
    ensures c.id.Some? ==> id == c.id.value
    ensures c.id.None? ==> id == FallbackCallId
  {
    c.id.GetOr(FallbackCallId)
  }

  /** The arguments a call is dispatched with: the decoded `arguments` text
      (`"{}"` when absent), or an empty map when decoding fails. */
  function CallArguments(c: ToolCall, parse: string -> Option<Args>): (args: Args)
    ensures c.arguments.None? ==> args == parse("{}").GetOr(map[])
    ensures c.arguments.Some? && parse(c.arguments.value).Some? ==> args == parse(c.arguments.value).value
    ensures c.arguments.Some? && parse(c.arguments.value).None? ==> args == map[]
  {
    parse(c.arguments.GetOr("{}")).GetOr(map[])
  }

  /** The reply of dispatching one call against a notes store. */
  function Dispatch(c: ToolCall, store: seq<string>, env: Env): (reply: ToolReply)
    ensures |store| <= |reply.store| <= |store| + 1 && reply.store[..|store|] == store
    ensures c.name != NotesName ==> reply.store == store
  {
    assert Catalog[0].name == CalculatorName && Catalog[1].name == NotesName;
    CallTool(c.name, CallArguments(c, env.parse), store, env.evaluate)
  }

  /** The tool messages of a run of calls, and the notes store before each
      call and after the last one. */
  datatype Execution = Execution(outputs: seq<Message>, stores: seq<seq<string>>)

  /** In `run`, the i-th output is the tool message answering the i-th call
      when it runs on the i-th store, and the next store is what that call
      leaves. */
  predicate Answers(calls: seq<ToolCall>, run: Execution, i: int, env: Env)
    requires 0 <= i < |calls| && |run.outputs| == |calls| && |run.stores| == |calls| + 1
  {
    var reply := Dispatch(calls[i], run.stores[i], env);
    run.outputs[i] == ToolResult(CallId(calls[i]), calls[i].name, reply.text) && run.stores[i + 1] == reply.store
  }

  /** Runs the calls one after another, in request order, threading the
      notes store: the i-th output answers the i-th call and was computed on
      the store the earlier calls left. */
  function ExecuteCalls(calls: seq<ToolCall>, store: seq<string>, env: Env): (r: Execution)
    ensures |r.outputs| == |calls| && |r.stores| == |calls| + 1
    ensures r.stores[0] == store
    ensures forall i {:trigger Answers(calls, r, i, env)} :: 0 <= i < |calls| ==> Answers(calls, r, i, env)
    ensures forall i :: 0 <= i < |calls| ==>
      r.outputs[i].ToolResult? && r.outputs[i].toolCallId == CallId(calls[i]) && r.outputs[i].name == calls[i].name
    decreases |calls|
  {
    if calls == [] then Execution([], [store])
    else
      var reply := Dispatch(calls[0], store, env);
      var rest := ExecuteCalls(calls[1..], reply.store, env);
      var r := Execution([ToolResult(CallId(calls[0]), calls[0].name, reply.text)] + rest.outputs, [store] + rest.stores);
      forall i | 0 <= i < |calls|
        ensures Answers(calls, r, i, env)
        ensures r.outputs[i].ToolResult? && r.outputs[i].toolCallId == CallId(calls[i]) && r.outputs[i].name == calls[i].name
      {
        if i > 0 {
          assert Answers(calls[1..], rest, i - 1, env);
          assert calls[i] == calls[1..][i - 1];
          assert r.outputs[i] == rest.outputs[i - 1];
          assert r.stores[i] == rest.stores[i - 1] && r.stores[i + 1] == rest.stores[i];
        }
      }
      r
  }

  /** The completion asks for tools: `tool_calls` is present and non-empty. */
  function WantsTools(c: Completion): (b: bool)
    ensures b <==> c.toolCalls.Some? && c.toolCalls.value != []
  {
    c.toolCalls.Some? && |c.toolCalls.value| > 0
  }

  /** The end of a turn: the new history and notes store, the requests sent
      in order, and the text shown (`Success`) or the error raised (`Failure`). */
  datatype TurnOutcome = TurnOutcome(
    history: seq<Message>,
    store: seq<string>,
    requests: seq<Request>,
    result: Result<string, string>)

  /** The first request: the history, with the tool catalog and `tool_choice` `"auto"`. */
  function ProposeRequest(env: Env, history: seq<Message>): (r: Request)
    ensures r.model == env.model && r.messages == history && r.temperature == 0.4
    ensures r.tools.Some? && |r.tools.value| == |Catalog|
    ensures forall i :: 0 <= i < |Catalog| ==> ReadDescriptor(r.tools.value[i]) == Some(SignatureOf(Catalog[i]))
    ensures r.toolChoice == Some("auto")
  {
    Request(env.model, history, Temperature, Some(ToolsSchema()), Some("auto"))
  }

  /** The follow-up request: the history only, no tools offered. */
  function FinalizeRequest(env: Env, history: seq<Message>): (r: Request)
    ensures r.model == env.model && r.messages == history && r.temperature == 0.4
    ensures r.tools.None? && r.toolChoice.None?
  {
    Request(env.model, history, Temperature, None, None)
  }

  /** `misco_turn`. The history only grows, starting with the user message;
      the first request always offers the tools; if that call fails, the
      user message is all the turn leaves behind. */
  function Turn(env: Env, history: seq<Message>, store: seq<string>, userInput: string, first: Exchange, second: Exchange): (o: TurnOutcome)
    ensures |history| < |o.history| && o.history[..|history|] == history
    ensures o.history[|history|] == User(userInput)
    ensures 1 <= |o.requests| <= 2
    ensures o.requests[0] == ProposeRequest(env, history + [User(userInput)])
    ensures ChatCompletion(first).Failure? ==>
      && o.history == history + [User(userInput)] && o.store == store
      && o.result == Failure(ChatCompletion(first).error) && |o.requests| == 1
  {
    var h1 := history + [User(userInput)];
    var propose := ProposeRequest(env, h1);
    match ChatCompletion(first)
    case Failure(e) => TurnOutcome(h1, store, [propose], Failure(e))
    case Success(reply) =>
      if WantsTools(reply) then
        var calls := reply.toolCalls.value;
        var run := ExecuteCalls(calls, store, env);
        var h2 := h1 + [AssistantToolCalls(reply.content.GetOr(""), calls)] + run.outputs;
        var requests := [propose, FinalizeRequest(env, h2)];
        var after := run.stores[|calls|];
        match ChatCompletion(second)
        case Failure(e) => TurnOutcome(h2, after, requests, Failure(e))
        case Success(final) =>
          var content := final.content.GetOr(NoResponse);
          TurnOutcome(h2 + [Assistant(content)], after, requests, Success(content))
      else
        var content := reply.content.GetOr(NoResponse);
        TurnOutcome(h1 + [Assistant(content)], store, [propose], Success(content))
  }

  const ExitKeywords: set<string> := {"salir", "exit", "quit"}

  /** The main loop's exit test: the input, trimmed and lower-cased, is one
      of the exit keywords. Equivalently, the infix between the input's
      leading and trailing whitespace lower-cases to a keyword. */
  function IsExitCommand(line: string): (b: bool)
    ensures b <==> exists i, j :: StripsTo(line, i, j) && Lower(line[i..j]) in ExitKeywords
  {
    StripCharacterised(line);
    Lower(Strip(line)) in ExitKeywords
  }
}
