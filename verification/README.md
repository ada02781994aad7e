# misco-agent: a Dafny model of the tool layer and the conversation turn

misco-agent is a terminal chat front-end for an OpenAI-compatible
`/chat/completions` endpoint. It keeps one running conversation history,
offers the model two local tools (a guarded calculator and a notes store),
runs the tool calls the model asks for, and asks the model a second time
for the final answer. This project models that core as pure functions and
proves what it does to the history, to the notes store and to the requests.

- `wrappers.dfy` (module `Wrappers`): `Option` for absent fields and keys, `Result` for a step that may raise.
- `seqs.dfy` (module `Seqs`): regrouping facts about sequence concatenation that the other proofs cite.
- `text.dfy` (module `Text`): the Python string operations the code uses. These are `str.strip()` with Python's whitespace set, `str.lower()` on ASCII letters, `str.join`, and `str(n)` for a status code.
- `tools.dfy` (module `Tools`): the catalog `MISCO_TOOLS` and its export `misco_tools_schema`. It also holds dispatch (`misco_call_tool`), the calculator's guards and the notes tool. The notes file is a `seq<string>` store passed in and returned.
- `agent.dfy` (module `Agent`): messages, requests and the error rule of `chat_completion`. It also holds `misco_turn` as `Turn` and the exit test of the main loop.
- `turn_properties.dfy` (module `TurnProperties`): lemmas about `Turn`.

What the model takes as input instead of computing:

- **The endpoint's answers.** Each call is an `Exchange`: either a transport failure or an HTTP status, the body text and the decoded first-choice message. `Turn` takes one exchange for each of its two calls and returns the requests it sent.
- **The argument decoder.** `Env.parse` stands for `json.loads` on a tool call's `arguments`. `None` means it raised.
- **The evaluator.** `Env.evaluate` stands for the restricted `eval`. It is only consulted after both calculator guards pass.
- **The model name.** It comes from the environment, so it is a field of `Env`.
- **The history and notes store.** The turn receives them, including the system message at index 0, and returns the new ones.

Where the code's behaviour is easy to misread, the model follows the code:

- The `(no response)` placeholder replaces the reply's content only when the `content` field is absent. An empty content is kept as it is (`EmptyContentIsNotReplaced`).
- The calculator whitelist is `0123456789+-*/()., `. It admits `,` and `.`, and the only whitespace it admits is the space. Leading and trailing whitespace is stripped first. Because `*` and `/` are admitted, Python's `**` and `//` pass it as well.
- A request failure is not absorbed. `chat_completion` raises, and `misco_turn` does not catch it. The main loop only catches `KeyboardInterrupt`, so the error ends the program. The model returns the error as `Failure` together with the history as it stood.
- A tool call without an id is answered under `"tool_1"`, so a tool message need not answer any earlier request. The link holds when the endpoint supplies ids (`TurnKeepsToolResultsLinked`). It breaks when a call lacks one and nothing requested `tool_1` (`MissingIdBreaksLink`).
- Any notes action other than `"add"` lists, including a missing or unknown action.

## Model

| member | source | states |
|---|---|---|
| Text.Strip | misco_tools.py:20 | `strip()` returns the infix of its argument between leading and trailing whitespace. It is empty exactly when the argument is blank. |
| Text.StripIgnoresPadding | misco_tools.py:54 | Surrounding text with whitespace does not change what `strip()` returns |
| Text.JoinSnoc | misco_tools.py:64 | Joining one more line extends the joined text by the separator and that line |
| Text.Lower | misco_app.py:103 | `lower()` keeps the length and maps each character on its own: `A`-`Z` to `a`-`z`, everything else unchanged |
| Text.Decimal | misco_app.py:36 | `str(n)` of a non-negative integer is a non-empty string of decimal digits with no leading zero |
| Text.DecimalRoundTrip | misco_app.py:36 | The status code written into the API error text reads back as the same number |
| Tools.Calculate | misco_tools.py:20-31 | A blank expression gives the missing-expression error. A character outside the whitelist gives the forbidden-characters error, whether it sits in the raw text outside the surrounding whitespace or anywhere in the stripped expression, an interior tab or newline included. Only an admitted expression is passed to the evaluator. Its value is returned as is, and a raised message as `Calc error: ` followed by that message. |
| Tools.CalcGuardsPrecedeEvaluation | misco_tools.py:21-28 | A rejected expression is never evaluated: the result does not depend on the evaluator and is one of the two guard errors |
| Tools.CalcIgnoresPadding | misco_tools.py:20 | Whitespace around the expression does not change the calculator's answer |
| Tools.CalcRejectsInteriorTab | misco_tools.py:23-25 | `1`, a tab, `2` is refused as forbidden: the only whitespace the whitelist admits is the space |
| Tools.CalcRejectsCode | misco_tools.py:23-25 | An expression with names, quotes or underscores, such as `__import__('os')`, is refused as forbidden |
| Tools.ListNotes | misco_tools.py:61-64 | The listing is the `(no notes yet)` sentinel exactly when the store is empty; otherwise it starts with the first note's `- ` line |
| Tools.Notes | misco_tools.py:43-64 | The store only grows, by at most one note. It grows exactly when the action is `"add"` and the text is not blank. The new last entry is the trimmed text, and the reply is `Note saved.`. A blank add returns the missing-text error. Any other action lists the unchanged store. |
| Tools.ListNotesSnoc | misco_tools.py:62-64 | For every store and note, listing the store with that note appended gives the old listing, a newline and `- ` plus the note. For an empty store it gives that line alone. With `ListNotes`'s sentinel clause this fixes the listing of every store: one `- n` line per note, in store order, joined by newlines. |
| Tools.ListAfterAdd | misco_tools.py:53-64 | After a successful `add(t)`, the listing is the old listing plus one last line, `- ` followed by the trimmed `t` |
| Tools.AddsKeepInsertionOrder | misco_tools.py:53-60 | Successive adds leave the old notes followed by the trimmed texts in call order |
| Tools.NotesExample | misco_tools.py:53-64 | Listing an empty store gives the sentinel. Adding `buy milk` replies `Note saved.`, and a later listing is exactly `- buy milk`. |
| Tools.CatalogNamesDistinct | misco_tools.py:67-91 | The two catalog names, `misco_calculator` and `misco_notes`, are distinct |
| Tools.CatalogEntries | misco_tools.py:67-91 | Each catalog name finds its own entry, which runs the handler that name stands for. The calculator's schema requires `expression` and the notes schema requires `action`. |
| Tools.FindTool | misco_tools.py:110-111 | Lookup returns the first tool with the requested name, or nothing exactly when no tool has that name |
| Tools.LookupUnambiguous | misco_tools.py:110-112 | With distinct names, looking a tool up by its own name finds that tool |
| Tools.Describe | misco_tools.py:97-105 | Reading a descriptor back gives `type` `function` and recovers the tool's name, description and parameters unchanged |
| Tools.DescribeAll | misco_tools.py:97-106 | One descriptor per tool, in the tools' order, each reading back to its tool |
| Tools.ToolsSchema | misco_tools.py:93-107 | The exported schema has one descriptor per catalog entry, in catalog order, each reading back to that entry |
| Tools.CallTool | misco_tools.py:109-113 | An unregistered name returns `Error: unknown tool '<name>'.` and leaves the store alone. The calculator's name runs the calculator on the given arguments. The notes name runs the notes tool. |
| Tools.UnknownNameRunsNoHandler | misco_tools.py:113 | Any name other than the two catalog names yields exactly the unknown-tool text with the store unchanged |
| Agent.ApiError | misco_app.py:36 | The raised text starts with `API error ` and ends with `: ` followed by the body cut to at most its first 1000 characters |
| Agent.ApiErrorNamesStatus | misco_app.py:36 | The raised text is `API error `, then decimal digits without a leading zero that read back as the status, then `: ` and at most the first 1000 characters of the body |
| Agent.ChatCompletion | misco_app.py:32-37 | The call fails exactly on a transport failure or a status of 400 or more. A transport failure raises its own message, and an error status raises the `API error` text. Otherwise the decoded body is returned. |
| Agent.CallId | misco_app.py:72 | A tool message is filed under the call's own id, or under `tool_1` when the call has none |
| Agent.CallArguments | misco_app.py:60-64 | A call is dispatched with its decoded `arguments`; a missing field decodes `"{}"`; a text that fails to decode gives an empty map |
| Agent.Dispatch | misco_app.py:60-67 | One call is dispatched by name with its decoded arguments. It never removes or changes a note, adds at most one, and only the notes tool can change the store |
| Agent.ExecuteCalls | misco_app.py:56-75 | Calls run in request order with the notes store threaded through. The i-th tool message carries the i-th call's id (`tool_1` when absent), its name, and the reply dispatch gave on the store the earlier calls left. |
| Agent.WantsTools | misco_app.py:55 | The tool path is taken exactly when `tool_calls` is present and non-empty, which is when Python finds it truthy |
| Agent.ProposeRequest | misco_app.py:42-48 | The first payload carries the model, the history, temperature 0.4, `tool_choice` `auto` and the catalog's descriptors in catalog order, each reading back to its tool |
| Agent.FinalizeRequest | misco_app.py:82-86 | The follow-up payload carries the model, the history and temperature 0.4, with no `tools` and no `tool_choice` |
| Agent.Turn | misco_app.py:39-96 | A turn only appends, starting with the user message. The first request always carries the catalog. If the first call fails, only the user message is added, the store is unchanged and the error is raised. |
| TurnProperties.ToolPathHistory | misco_app.py:55-90 | On the tool path the history gains the user message, the assistant message with the calls and the tool messages. The final assistant message follows only when the follow-up succeeds, and exactly two requests are sent. |
| TurnProperties.TurnKeepsEarlierMessages | misco_app.py:26-28 | The system message stays at index 0 and every earlier message is unchanged |
| TurnProperties.NoToolTurn | misco_app.py:92-95 | Without tool calls exactly two messages are appended: the user message, then the reply's content, or `(no response)` when the field is absent |
| TurnProperties.EmptyContentIsNotReplaced | misco_app.py:94 | An empty `content` is kept, not replaced by the placeholder |
| TurnProperties.ToolTurnLayout | misco_app.py:55-90 | With K calls and a successful follow-up, exactly K+3 messages are appended in this order: user, the assistant message with the original calls (content `""` when absent), K tool messages, then the final assistant message |
| TurnProperties.ToolMessagesAnswerCalls | misco_app.py:57-75 | The i-th tool message carries the i-th call's id (`tool_1` when absent), the requested name, and the dispatch result |
| TurnProperties.UndecodableArgumentsStillAnswered | misco_app.py:60-67 | Arguments that fail to decode are dispatched as an empty map and the call is still answered |
| TurnProperties.MissingArgumentsDecodeEmptyObject | misco_app.py:60 | A call without `arguments` is dispatched with what `"{}"` decodes to |
| TurnProperties.CalculatorRoundTrip | misco_app.py:55-90 | For a `2+2` calculator call answered `4`, the history gains user, assistant with the call, tool `4` and the final assistant message, in that order |
| TurnProperties.FirstCallFailure | misco_app.py:40-50 | If the first call fails, the history ends with the new user message, gets no assistant message, and the store is unchanged |
| TurnProperties.SecondCallFailure | misco_app.py:78-87 | If the follow-up fails, the history ends with the assistant message with the calls and the tool messages, with no final assistant message, and the notes the tools saved stay saved |
| TurnProperties.RequestShapes | misco_app.py:42-86 | The first request sends the model, the history so far, temperature 0.4, the catalog and `tool_choice` `auto`. The follow-up is sent exactly on the tool path and carries only the model, the history up to the tool messages and temperature 0.4. |
| TurnProperties.TurnKeepsToolResultsLinked | misco_app.py:70-79 | When every call carries an id, every tool message answers an id an earlier assistant message requested |
| TurnProperties.MissingIdBreaksLink | misco_app.py:72 | A call without an id is filed under `tool_1`. If nothing requested that id, some tool message then answers no request. |
| Agent.IsExitCommand | misco_app.py:103 | The input is an exit command exactly when the part between its leading and trailing whitespace lower-cases to `salir`, `exit` or `quit` |
| TurnProperties.ExitIgnoresPadding | misco_app.py:103 | Whitespace around the input does not change whether it is an exit command |
| TurnProperties.ExitIgnoresCase | misco_app.py:103 | Changing the case of ASCII letters does not change whether the input is an exit command |
| TurnProperties.ExitKeywordsAccepted | misco_app.py:103 | `salir`, `exit` and `quit` are exit commands |
| TurnProperties.ExitPaddedCapitals | misco_app.py:103 | `  QUIT` followed by a newline is an exit command |
| TurnProperties.ExitNeedsWholeInput | misco_app.py:103 | `exit now` is not an exit command |

## Left out

- The HTTP transport is not modelled. This covers the URL, headers, bearer credential, 60-second timeout, JSON encoding of the payload and decoding of the response. Each call is an `Exchange` given as input.
- Reading the environment, the `.env` file and the system prompt file is not modelled. The model name is a field of `Env`, and the system message arrives in the history.
- Console rendering is not modelled: the Markdown display and the `Running misco_tool` notice printed before each call. The text a turn displays is its `Success` result.
- ExecuteCalls and Turn do not model the notice raising. The notice at misco_app.py:66 goes through Rich with markup enabled, so a tool name or arguments holding a closing markup tag such as `[/x]` or `[/]` make the print raise before that call's handler runs. The error leaves `misco_turn`: notes saved by earlier calls of the same reply stay saved, and the history holds only the new user message. The model answers every call instead.
- The interactive input loop is not modelled apart from its exit test `IsExitCommand`.
- Text.Lower: maps only the ASCII letters `A`-`Z`; Python's `lower()` maps every cased character. For the exit test this gives the same answer: the only non-ASCII characters whose lower case contains an ASCII letter are the Kelvin sign (to `k`) and U+0130 (to `i` plus a combining dot), and neither can produce `salir`, `exit` or `quit`.
- Python's `eval` is the `Env.evaluate` parameter. Its semantics are out of scope: float division, tuples built with commas, and the exceptions it raises.
- Env.evaluate always returns, whereas `eval` of an admitted expression may not. `9**9**9**9` passes both guards, and evaluating it runs for an impractically long time or exhausts memory. Then neither the calculator call nor the turn finishes. The model gives every admitted expression a value or a raised message.
- `json.loads` on tool arguments is the `Env.parse` parameter. A falsy decode (`null`, `[]`, `0`, `""`, `false`) is replaced by `{}` at misco_tools.py:112, which `parse` expresses by returning an empty map. A truthy decode that is not an object, such as `[1]` or `5`, is not modelled when the call names a catalog tool: the handler's `args.get` would raise out of the turn. Sent to an unknown name it only yields the unknown-tool text, which does not depend on the arguments.
- The notes file is the `seq<string>` store. Creating it, reading it and writing it back as JSON are not modelled, nor is a corrupt file.
- A non-string argument value is carried as its Python `str()` rendering (`Value.NonStr`). The handlers only ever compare a value with a string literal or call `str()` on it.
- Several malformed endpoint replies are not modelled. A reply with `content: null` cannot be expressed: content is either absent or a string. Nor can a tool call missing `function` or `name` (a `KeyError`), an empty `choices` list (an `IndexError`), or a success response whose body is not JSON.
- TurnProperties.ExitIgnoresCase: covers only changes of case of ASCII letters. A non-ASCII case change can change the answer. `quıt` (dotless i) is not an exit command, but its Python `upper()` is `QUIT`, which is; `ſalir` (long s) and `exıt` behave the same way.
