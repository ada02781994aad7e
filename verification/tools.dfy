/** The tool layer of misco-agent: the fixed catalog of tools, its export in
    the OpenAI `tools` shape, dispatch by name, and the two handlers (a
    guarded calculator and a notes store). The notes file is replaced by a
    `seq<string>` store threaded through every call, and Python's `eval` by
    an evaluator the caller supplies. */
module Tools {
  import opened Wrappers
  import opened Text
  import opened Seqs

  /** A JSON document, enough of it for the tools' parameter schemas and
      their descriptors; object members keep their insertion order. */
  datatype Json =
    | JString(text: string)
    | JArray(items: seq<Json>)
    | JObject(members: seq<(string, Json)>)

  /** One value of a tool's argument object. The handlers only compare a
      value with a string literal or pass it to Python's `str()`, so a value
      that is not a JSON string is carried as its `str()` rendering. */
  datatype Value = Str(s: string) | NonStr(rendering: string)

  /** A tool's arguments: the decoded JSON object. */
  type Args = map<string, Value>

  /** Python's `str(value)`. */
  function PyStr(v: Value): string {
    match v
    case Str(s) => s
    case NonStr(r) => r
  }

  /** Python's `args.get(key, default)`. */
  function Get(args: Args, key: string, default: Value): Value {
    if key in args then args[key] else default
  }

  /** What one handler call returns, with the notes store it leaves behind. */
  datatype ToolReply = ToolReply(text: string, store: seq<string>)

  // ---------- Calculator ----------

  /** The only characters the calculator lets through to evaluation. */
  const CalcWhitelist := "0123456789+-*/()., "
  const MissingExpression := "Error: missing 'expression'."
  const ForbiddenCharacters := "Error: found forbidden characters in expression."

  /** What Python's restricted `eval` did with an admitted expression:
      produced a value (given by its `str()` rendering) or raised. */
  datatype EvalResult = Evaluated(text: string) | Raised(message: string)

  predicate Whitelisted(e: string) {
    forall i :: 0 <= i < |e| ==> e[i] in CalcWhitelist
  }

  /** The expression text the calculator works on: `str(args.get("expression", "")).strip()`. */
  function ExpressionOf(args: Args): string {
    Strip(PyStr(Get(args, "expression", Str(""))))
  }

  /** The expression passes both guards and reaches evaluation. */
  predicate Admitted(args: Args) {
    var e := ExpressionOf(args);
    e != [] && Whitelisted(e)
  }

  function RenderEval(ev: EvalResult): string {
    match ev
    case Evaluated(t) => t
    case Raised(m) => "Calc error: " + m
  }

  /** The calculator handler. A blank expression is reported as missing; a
      character outside the whitelist, in the raw text outside the
      surrounding whitespace or anywhere in the stripped expression (an
      interior tab or newline included), is reported as forbidden; only an
      expression that passes both guards is evaluated. */
  function Calculate(args: Args, evaluate: string -> EvalResult): (r: string)
    ensures var raw := PyStr(Get(args, "expression", Str("")));
      && (AllSpace(raw) ==> r == MissingExpression)
      && ((exists k :: 0 <= k < |raw| && !IsSpace(raw[k]) && raw[k] !in CalcWhitelist) ==> r == ForbiddenCharacters)
      && ((exists k :: 0 <= k < |ExpressionOf(args)| && ExpressionOf(args)[k] !in CalcWhitelist) ==> r == ForbiddenCharacters)
      && (Admitted(args) ==> r == RenderEval(evaluate(ExpressionOf(args))))
  {
    var raw := PyStr(Get(args, "expression", Str("")));
    var e := ExpressionOf(args);
    if e == [] then MissingExpression
    else if !Whitelisted(e) then ForbiddenCharacters
    else
      assert forall k :: 0 <= k < |raw| && !IsSpace(raw[k]) ==> raw[k] in CalcWhitelist by {
        forall k | 0 <= k < |raw| && !IsSpace(raw[k])
          ensures raw[k] in CalcWhitelist
        {
          StripKeepsNonSpace(raw, k);
        }
      }
      RenderEval(evaluate(e))
  }

  /** Evaluation is never reached unless both guards pass: for a rejected
      expression the result does not depend on the evaluator at all. */
  lemma CalcGuardsPrecedeEvaluation(args: Args, ev1: string -> EvalResult, ev2: string -> EvalResult)
    requires !Admitted(args)
    ensures Calculate(args, ev1) == Calculate(args, ev2)
    ensures Calculate(args, ev1) in {MissingExpression, ForbiddenCharacters}
  {
  }

  /** Whitespace around the expression makes no difference to the calculator. */
  lemma CalcIgnoresPadding(args: Args, w1: string, e: string, w2: string, evaluate: string -> EvalResult)
    requires AllSpace(w1) && AllSpace(w2)
    ensures Calculate(args["expression" := Str(w1 + e + w2)], evaluate)
         == Calculate(args["expression" := Str(e)], evaluate)
  {
    StripIgnoresPadding(w1, e, w2);
  }

  // ---------- Notes ----------

  const NoteSaved := "Note saved."
  const MissingNoteText := "Error: missing 'text' to add a note."
  const NoNotesYet := "(no notes yet)"

  /** The action is `"add"`; an absent action defaults to `"list"`, and any
      other value lists too. */
  predicate IsAdd(args: Args) {
    Get(args, "action", Str("list")) == Str("add")
  }

  /** The note an `add` stores: `str(args.get("text", "")).strip()`. */
  function NoteText(args: Args): string {
    Strip(PyStr(Get(args, "text", Str(""))))
  }

  function Bullets(store: seq<string>): (lines: seq<string>)
    ensures |lines| == |store|
    ensures forall i :: 0 <= i < |store| ==> lines[i] == "- " + store[i]
  {
    if store == [] then [] else ["- " + store[0]] + Bullets(store[1..])
  }

  /** The text the list action shows: the sentinel exactly when the store is
      empty, and otherwise one `- note` line per note, oldest first. */
  function ListNotes(store: seq<string>): (r: string)
    ensures r == NoNotesYet <==> store == []
    ensures store != [] ==> "- " + store[0] <= r
  {
    if store == [] then NoNotesYet
    else
      var lines := Bullets(store);
      JoinStartsWithFirst("\n", lines);
      assert Join("\n", lines)[0] == lines[0][0] == '-';
      Join("\n", lines)
  }

  /** The notes handler over the store. An `add` with non-blank text appends
      the trimmed text and nothing else; a blank `add` and every listing
      leave the store as it was. */
  function Notes(args: Args, store: seq<string>): (r: ToolReply)
    ensures |store| <= |r.store| <= |store| + 1 && r.store[..|store|] == store
    ensures |r.store| == |store| + 1 <==> IsAdd(args) && !AllSpace(PyStr(Get(args, "text", Str(""))))
    ensures |r.store| == |store| + 1 ==> r.store[|store|] == NoteText(args) && r.text == NoteSaved
    ensures IsAdd(args) && r.store == store ==> r.text == MissingNoteText
    ensures !IsAdd(args) ==> r.text == ListNotes(store)
  {
    if IsAdd(args) then
      var text := NoteText(args);
      if text == [] then ToolReply(MissingNoteText, store)
      else ToolReply(NoteSaved, store + [text])
    else
      ToolReply(ListNotes(store), store)
  }

  /** The listing of a store with one more note at the end is the old
      listing plus one last line, `- ` followed by that note; for an empty
      store it is that line alone. */
  lemma ListNotesSnoc(store: seq<string>, t: string)
    ensures ListNotes(store + [t]) == if store == [] then "- " + t else ListNotes(store) + "\n" + "- " + t
  {
    BulletsSnoc(store, t);
    if store == [] {
      assert Bullets(store + [t]) == ["- " + t];
    } else {
      JoinSnoc("\n", Bullets(store), "- " + t);
    }
  }

  lemma BulletsSnoc(store: seq<string>, t: string)
    ensures Bullets(store + [t]) == Bullets(store) + ["- " + t]
  {
    var l := Bullets(store + [t]);
    assert forall i :: 0 <= i < |store| ==> l[i] == "- " + (store + [t])[i] == "- " + store[i];
  }

  /** After a successful `add(t)` the listing gains exactly one last line,
      `- ` followed by the trimmed `t`. */
  lemma ListAfterAdd(args: Args, store: seq<string>)
    requires IsAdd(args) && NoteText(args) != []
    ensures var t := NoteText(args);
      ListNotes(Notes(args, store).store)
        == if store == [] then "- " + t else ListNotes(store) + "\n" + "- " + t
  {
    SavedNoteAppended(args, store);
    ListNotesSnoc(store, NoteText(args));
  }

  /** The store after a run of handler calls. */
  function RunNotes(calls: seq<Args>, store: seq<string>): seq<string>
    decreases |calls|
  {
    if calls == [] then store else RunNotes(calls[1..], Notes(calls[0], store).store)
  }

  /** The call is an `add` whose text is not blank, so it saves a note. */
  predicate SavesNote(args: Args) {
    IsAdd(args) && NoteText(args) != []
  }

  /** The trimmed texts of a run of `add` calls, in call order. */
  function AddedTexts(calls: seq<Args>): (texts: seq<string>)
    ensures |texts| == |calls|
    ensures forall i :: 0 <= i < |calls| ==> texts[i] == NoteText(calls[i])
  {
    if calls == [] then [] else [NoteText(calls[0])] + AddedTexts(calls[1..])
  }

  /** A saving call appends its trimmed text. */
  lemma SavedNoteAppended(args: Args, store: seq<string>)
    requires SavesNote(args)
    ensures Notes(args, store).store == store + [NoteText(args)]
  {
  }

  /** Successive `add` calls keep insertion order: the store ends with their
      trimmed texts, in call order, after the notes already there. */
  lemma {:induction false} AddsKeepInsertionOrder(calls: seq<Args>, store: seq<string>)
    requires forall i :: 0 <= i < |calls| ==> SavesNote(calls[i])
    ensures RunNotes(calls, store) == store + AddedTexts(calls)
    decreases |calls|
  {
    if calls != [] {
      var t := NoteText(calls[0]);
      var rest := calls[1..];
      SavedNoteAppended(calls[0], store);
      assert forall i :: 0 <= i < |rest| ==> SavesNote(rest[i]) by {
        forall i | 0 <= i < |rest| ensures SavesNote(rest[i]) {
          assert rest[i] == calls[i + 1];
        }
      }
      AddsKeepInsertionOrder(rest, store + [t]);
      assert AddedTexts(calls) == [t] + AddedTexts(rest);
      AppendAssociates(store, [t], AddedTexts(rest));
    }
  }

  /** Adding "buy milk" to an empty store and then listing shows exactly
      one line, `- buy milk`; listing the empty store shows the sentinel. */
  lemma NotesExample()
    ensures Notes(map["action" := Str("list")], []) == ToolReply("(no notes yet)", [])
    ensures var added := Notes(map["action" := Str("add"), "text" := Str("buy milk")], []);
      && added == ToolReply("Note saved.", ["buy milk"])
      && Notes(map[], added.store).text == "- buy milk"
  {
    StripOfTrimmed("buy milk");
    assert NoteText(map["action" := Str("add"), "text" := Str("buy milk")]) == "buy milk";
    assert "- " + "buy milk" == "- buy milk";
    assert Bullets(["buy milk"]) == ["- buy milk"];
  }

  /** The only whitespace the whitelist admits is the space: an interior tab
      is refused as forbidden, not evaluated. */
  lemma CalcRejectsInteriorTab(evaluate: string -> EvalResult)
    ensures Calculate(map["expression" := Str("1\t2")], evaluate) == ForbiddenCharacters
  {
    var args := map["expression" := Str("1\t2")];
    assert PyStr(Get(args, "expression", Str(""))) == "1\t2";
    StripOfTrimmed("1\t2");
    var e := ExpressionOf(args);
    assert e == "1\t2";
    assert e[1] !in CalcWhitelist;
  }

  /** Names, calls and assignments never reach evaluation. */
  lemma CalcRejectsCode(evaluate: string -> EvalResult)
    ensures Calculate(map["expression" := Str("__import__('os')")], evaluate) == ForbiddenCharacters
  {
    var raw := "__import__('os')";
    assert !IsSpace(raw[0]) && raw[0] !in CalcWhitelist;
  }

  // ---------- Catalog ----------

  /** Which handler a catalog entry runs. */
  datatype Handler = Calculator | NotesKeeper

  datatype Tool = Tool(name: string, description: string, params: Json, handler: Handler)

  const CalculatorName := "misco_calculator"
  const NotesName := "misco_notes"

  const CalculatorDescription := "Solves simple arithmetic expressions (+, -, *, /, parentheses)."
  const NotesDescription := "Stores or lists notes. Use action='add' with text, or action='list'."

  /** The calculator's parameter schema: one required string, `expression`. */
  const CalculatorParams: Json := JObject([
    ("type", JString("object")),
    ("properties", JObject([("expression", JObject([("type", JString("string"))]))])),
    ("required", JArray([JString("expression")]))
  ])

  /** The notes tool's parameter schema: a required `action` (`add` or
      `list`) and an optional `text`. */
  const NotesParams: Json := JObject([
    ("type", JString("object")),
    ("properties", JObject([
      ("action", JObject([("type", JString("string")), ("enum", JArray([JString("add"), JString("list")]))])),
      ("text", JObject([("type", JString("string"))]))
    ])),
    ("required", JArray([JString("action")]))
  ])

  /** The registered tools, in registration order. */
  const Catalog: seq<Tool> := [
    Tool(CalculatorName, CalculatorDescription, CalculatorParams, Calculator),
    Tool(NotesName, NotesDescription, NotesParams, NotesKeeper)
  ]

  predicate DistinctNames(tools: seq<Tool>) {
    forall i, j :: 0 <= i < j < |tools| ==> tools[i].name != tools[j].name
  }

  /** The catalog registers each name once. */
  lemma CatalogNamesDistinct()
    ensures DistinctNames(Catalog)
  {
    assert CalculatorName[6] != NotesName[6];
  }

  /** Each catalog name finds its own entry, that entry runs the handler the
      name stands for, and its parameter schema requires the argument that
      handler reads first. */
  lemma CatalogEntries()
    ensures FindTool(Catalog, CalculatorName) == Some(0) && Catalog[0].handler == Calculator
    ensures FindTool(Catalog, NotesName) == Some(1) && Catalog[1].handler == NotesKeeper
    ensures Member(Catalog[0].params.members, "required") == Some(JArray([JString("expression")]))
    ensures Member(Catalog[1].params.members, "required") == Some(JArray([JString("action")]))
  {
    assert CalculatorName[6] != NotesName[6];
    assert CalculatorParams.members[0].0 != "required" && CalculatorParams.members[1].0 != "required";
    assert NotesParams.members[0].0 != "required" && NotesParams.members[1].0 != "required";
  }

  /** The first tool registered under `name`, as the loop at misco_tools.py:110-111 finds it. */
  function FindTool(tools: seq<Tool>, name: string): (r: Option<nat>)
    ensures r.Some? ==> r.value < |tools| && tools[r.value].name == name
    ensures r.Some? ==> forall j :: 0 <= j < r.value ==> tools[j].name != name
    ensures r.None? <==> forall j :: 0 <= j < |tools| ==> tools[j].name != name
  {
    if tools == [] then None
    else if tools[0].name == name then Some(0)
    else
      match FindTool(tools[1..], name)
      case None => None
      case Some(k) => Some(k + 1)
  }

  /** With distinct names, looking a tool up by its own name finds that tool. */
  lemma LookupUnambiguous(tools: seq<Tool>, i: nat)
    requires DistinctNames(tools) && i < |tools|
    ensures FindTool(tools, tools[i].name) == Some(i)
  {
  }

  // ---------- Schema export ----------

  /** The wire descriptor of one tool: `{"type": "function", "function": {...}}`.
      Reading it back gives type `function` and recovers the tool's name,
      description and parameters unchanged. */
  function Describe(t: Tool): (d: Json)
    ensures ReadDescriptor(d) == Some(SignatureOf(t))
  {
    var f := [("name", JString(t.name)), ("description", JString(t.description)), ("parameters", t.params)];
    var d := JObject([("type", JString("function")), ("function", JObject(f))]);
    assert Member(d.members, "function") == Some(JObject(f)) by {
      assert d.members[0].0 != "function";
    }
    assert Member(f, "description") == Some(JString(t.description)) by {
      assert f[0].0 != "description";
    }
    assert Member(f, "parameters") == Some(t.params) by {
      assert f[0].0 != "parameters" && f[1].0 != "parameters";
      assert Member(f[2..], "parameters") == Some(t.params);
      assert Member(f[1..], "parameters") == Member(f[1..][1..], "parameters");
      assert f[1..][1..] == f[2..];
    }
    d
  }

  /** What a descriptor tells the endpoint about a tool. */
  datatype Signature = Signature(name: string, description: string, params: Json)

  function SignatureOf(t: Tool): Signature {
    Signature(t.name, t.description, t.params)
  }

  /** The first member of an object under `key`. */
  function Member(members: seq<(string, Json)>, key: string): Option<Json> {
    if members == [] then None
    else if members[0].0 == key then Some(members[0].1)
    else Member(members[1..], key)
  }

  /** Reads a descriptor back: it must be a `function` descriptor whose
      name and description are strings. */
  function ReadDescriptor(d: Json): Option<Signature> {
    if !d.JObject? then None
    else
      match (Member(d.members, "type"), Member(d.members, "function"))
      case (Some(JString("function")), Some(JObject(f))) =>
        (match (Member(f, "name"), Member(f, "description"), Member(f, "parameters"))
         case (Some(JString(n)), Some(JString(desc)), Some(p)) => Some(Signature(n, desc, p))
         case _ => None)
      case _ => None
  }

  /** One descriptor per tool, in the tools' order. */
  function DescribeAll(tools: seq<Tool>): (r: seq<Json>)
    ensures |r| == |tools|
    ensures forall i :: 0 <= i < |tools| ==> ReadDescriptor(r[i]) == Some(SignatureOf(tools[i]))
  {
    if tools == [] then []
    else
      [Describe(tools[0])] + DescribeAll(tools[1..])
  }

  /** `misco_tools_schema()`: the catalog in the OpenAI `tools` shape. */
  function ToolsSchema(): (r: seq<Json>)
    ensures |r| == |Catalog|
    ensures forall i :: 0 <= i < |Catalog| ==> ReadDescriptor(r[i]) == Some(SignatureOf(Catalog[i]))
  {
    DescribeAll(Catalog)
  }

  // ---------- Dispatch ----------

  /** The reply to a name no tool is registered under. */
  function UnknownTool(name: string): string {
    "Error: unknown tool '" + name + "'."
  }

  function RunHandler(h: Handler, args: Args, store: seq<string>, evaluate: string -> EvalResult): ToolReply {
    match h
    case Calculator => ToolReply(Calculate(args, evaluate), store)
    case NotesKeeper => Notes(args, store)
  }

  /** `misco_call_tool`: runs the handler of the first tool registered under
      `name`; an unknown name yields an error text and runs no handler.
      `tool_args or {}` at misco_tools.py:112 leaves a dictionary as it is
      (an empty one becomes another empty one), so the arguments are passed
      through. */
  function CallTool(name: string, args: Args, store: seq<string>, evaluate: string -> EvalResult): (r: ToolReply)
    ensures (forall i :: 0 <= i < |Catalog| ==> Catalog[i].name != name) ==> r == ToolReply(UnknownTool(name), store)
    ensures name == CalculatorName ==> r == ToolReply(Calculate(args, evaluate), store)
    ensures name == NotesName ==> r == Notes(args, store)
  {
    assert Catalog[0].name == CalculatorName && Catalog[1].name == NotesName;
    CatalogNamesDistinct();
    match FindTool(Catalog, name)
    case None => ToolReply(UnknownTool(name), store)
    case Some(i) => RunHandler(Catalog[i].handler, args, store, evaluate)
  }

  /** The two catalog names are the only ones dispatch recognises. */
  lemma UnknownNameRunsNoHandler(name: string, args: Args, store: seq<string>, evaluate: string -> EvalResult)
    requires name != CalculatorName && name != NotesName
    ensures CallTool(name, args, store, evaluate) == ToolReply("Error: unknown tool '" + name + "'.", store)
  {
  }
}
