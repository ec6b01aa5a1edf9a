/** `call_tool`: selects the tool by name, validates the arguments, builds a
    converter, converts, and turns every raised exception into one text item
    `"Error: " + message`. */
module Server {
  import opened Wrappers
  import opened Request
  import opened Converter
  import opened Catalogue

  /** Why a call failed: the exception `call_tool` catches. */
  datatype Failure =
    | UnknownTool(name: string)                // ValueError raised by the final `else`
    | InvalidArguments(args: map<string, JsonValue>, issues: seq<Issue>)  // pydantic's ValidationError
    | ConstructionFailed(message: string)      // raised by the KanjiConv constructor
    | ConversionFailed(message: string)        // raised by the conversion method

  /** What happens inside the `try`: the converted text or the exception. */
  datatype Outcome = Converted(text: string) | Failed(failure: Failure)

  /** One item of the returned content list. */
  datatype TextContent = TextContent(kind: string, text: string)

  const ErrorPrefix := "Error: "
  const UnknownToolPrefix := "Unknown tool: "

  /** `str(e)` of each caught exception: the unknown-tool `ValueError`'s
      text, pydantic's description of the issues, or the library
      exception's own message. */
  function Message(v: Validator, f: Failure): (m: string)
    ensures f.UnknownTool? ==> m == "Unknown tool: " + f.name
    ensures f.InvalidArguments? ==> m == v.describe(f.args, f.issues)
    ensures f.ConstructionFailed? || f.ConversionFailed? ==> m == f.message
  {
    match f
    case UnknownTool(name) => UnknownToolPrefix + name
    case InvalidArguments(args, issues) => v.describe(args, issues)
    case ConstructionFailed(message) => message
    case ConversionFailed(message) => message
  }

  /** The conversion method each tool calls: the tool named
      `convert_to_hiragana` calls `to_hiragana`, and so on. */
  function Convert(engine: Engine, k: ToolKind, config: KanjiConvConfig, text: string): (r: Result<string, string>)
    ensures ToolName(k) == "convert_to_hiragana" ==> r == engine.toHiragana(config, text)
    ensures ToolName(k) == "convert_to_katakana" ==> r == engine.toKatakana(config, text)
    ensures ToolName(k) == "convert_to_roman" ==> r == engine.toRoman(config, text)
  {
    match k
    case Hiragana => engine.toHiragana(config, text)
    case Katakana => engine.toKatakana(config, text)
    case Roman => engine.toRoman(config, text)
  }

  /** The body of the `try`: the tool name is checked first, then the
      arguments are validated, then a converter is built, then it converts. */
  function Dispatch(v: Validator, engine: Engine, name: string, args: map<string, JsonValue>): (o: Outcome)
    ensures o == Failed(UnknownTool(name)) <==> ParseToolName(name).None?
    ensures ParseToolName(name).Some? && ParseRequest(v, args).Err? ==> o == Failed(InvalidArguments(args, ParseRequest(v, args).error))
  {
    match ParseToolName(name)
    case None => Failed(UnknownTool(name))
    case Some(k) =>
      match ParseRequest(v, args)
      case Err(issues) => Failed(InvalidArguments(args, issues))
      case Ok(req) =>
        match GetKanjiConvInstance(engine, req.separator, req.useCustomReadings, req.useUnidic, req.sudachiDictType)
        case Err(message) => Failed(ConstructionFailed(message))
        case Ok(config) =>
          match Convert(engine, k, config, req.text)
          case Ok(result) => Converted(result)
          case Err(message) => Failed(ConversionFailed(message))
  }

  /** The `return` of either the `try` or the `except` branch. */
  function Render(v: Validator, o: Outcome): (item: TextContent)
    ensures item.kind == "text"
    ensures o.Converted? ==> item.text == o.text
    ensures o.Failed? ==> item.text == ErrorPrefix + Message(v, o.failure)
  {
    match o
    case Converted(text) => TextContent("text", text)
    case Failed(f) => TextContent("text", ErrorPrefix + Message(v, f))
  }

  /** `call_tool`: always exactly one text item, whatever the name, the
      arguments, the validator and the converter do. */
  function CallTool(v: Validator, engine: Engine, name: string, args: map<string, JsonValue>): (items: seq<TextContent>)
    ensures |items| == 1 && items[0].kind == "text"
  {
    [Render(v, Dispatch(v, engine, name, args))]
  }

  /** A name that is not listed yields exactly `"Error: Unknown tool: " + name`,
      and a listed name never yields an unknown-tool failure. */
  lemma UnknownToolReply(v: Validator, engine: Engine, name: string, args: map<string, JsonValue>)
    ensures name !in Names(ListTools()) ==>
      CallTool(v, engine, name, args) == [TextContent("text", "Error: Unknown tool: " + name)]
    ensures name in Names(ListTools()) ==> Dispatch(v, engine, name, args) != Failed(UnknownTool(name))
  {
    ListedIffDispatched(name);
    if ParseToolName(name).None? {
      UnknownToolText(v, name);
    }
  }

  lemma UnknownToolText(v: Validator, name: string)
    ensures Render(v, Failed(UnknownTool(name))) == TextContent("text", "Error: Unknown tool: " + name)
  {
  }

  /** A listed tool called without `text` replies with an error item that
      reports the missing field, whatever the converter would have done. */
  lemma MissingTextReply(v: Validator, engine: Engine, name: string, args: map<string, JsonValue>)
    requires name in Names(ListTools())
    requires TextField !in args
    ensures Dispatch(v, engine, name, args).Failed?
    ensures Dispatch(v, engine, name, args).failure.InvalidArguments?
    ensures Dispatch(v, engine, name, args).failure.issues[0] == Issue(TextField, Missing)
    ensures CallTool(v, engine, name, args)[0].text[..|ErrorPrefix|] == ErrorPrefix
    ensures CallTool(v, engine, name, args)[0].text == "Error: " + v.describe(args, ParseRequest(v, args).error)
  {
  }

  /** Every caught exception becomes `"Error: " + str(e)`, and a successful
      conversion is returned unmodified: nothing escapes and nothing else
      is produced. */
  lemma ReplyText(v: Validator, engine: Engine, name: string, args: map<string, JsonValue>)
    ensures Dispatch(v, engine, name, args).Converted? ==>
      CallTool(v, engine, name, args)[0].text == Dispatch(v, engine, name, args).text
    ensures Dispatch(v, engine, name, args).Failed? ==>
      CallTool(v, engine, name, args)[0].text == ErrorPrefix + Message(v, Dispatch(v, engine, name, args).failure)
  {
  }

  /** The reply a conversion produces: its string, or `"Error: "` and its message. */
  function ReplyOf(result: Result<string, string>): TextContent {
    match result
    case Ok(s) => TextContent("text", s)
    case Err(m) => TextContent("text", "Error: " + m)
  }

  /** A listed tool with valid arguments builds its converter from exactly
      the request's separator and flags and the resolved dictionary tier.
      If the constructor raises, the reply is `"Error: "` and its message.
      Otherwise each tool calls its own method of the library on `text`,
      and the reply is that method's string unmodified, or `"Error: "` and
      the message it raised. */
  lemma EachToolCallsItsOwnMethod(v: Validator, engine: Engine, args: map<string, JsonValue>)
    requires ParseRequest(v, args).Ok?
    ensures var req := ParseRequest(v, args).value;
      var config := KanjiConvConfig(req.separator, req.useCustomReadings, req.useUnidic, ResolveDictType(req.sudachiDictType));
      && (engine.construct(config).Raises? ==>
            && CallTool(v, engine, "convert_to_hiragana", args) == [TextContent("text", "Error: " + engine.construct(config).message)]
            && CallTool(v, engine, "convert_to_katakana", args) == [TextContent("text", "Error: " + engine.construct(config).message)]
            && CallTool(v, engine, "convert_to_roman", args) == [TextContent("text", "Error: " + engine.construct(config).message)])
      && (engine.construct(config).Builds? ==>
            && CallTool(v, engine, "convert_to_hiragana", args) == [ReplyOf(engine.toHiragana(config, req.text))]
            && CallTool(v, engine, "convert_to_katakana", args) == [ReplyOf(engine.toKatakana(config, req.text))]
            && CallTool(v, engine, "convert_to_roman", args) == [ReplyOf(engine.toRoman(config, req.text))])
  {
  }

  /** The defaults reach the converter: a listed tool called with only
      `text` builds a converter with separator "/", custom readings on,
      UniDic off and the FULL dictionary. */
  lemma DefaultConfiguration(v: Validator, engine: Engine, k: ToolKind, text: string)
    requires Lax(v)
    requires engine.construct(KanjiConvConfig("/", true, false, Full)).Builds?
    ensures Dispatch(v, engine, ToolName(k), map[TextField := JString(text)])
      == match Convert(engine, k, KanjiConvConfig("/", true, false, Full), text)
         case Ok(result) => Converted(result)
         case Err(message) => Failed(ConversionFailed(message))
  {
  }

  /** A dictionary type that names no member, in any case, is not rejected:
      the call behaves exactly as if `"full"` had been given. */
  lemma UnknownDictTypeActsAsFull(v: Validator, engine: Engine, name: string, args: map<string, JsonValue>)
    requires Lax(v)
    requires ParseRequest(v, args).Ok?
    requires forall m: DictType :: MemberName(m) != PyStr.Upper(ParseRequest(v, args).value.sudachiDictType)
    ensures Dispatch(v, engine, name, args) == Dispatch(v, engine, name, args[SudachiDictTypeField := JString("full")])
  {
    var args' := args[SudachiDictTypeField := JString("full")];
    assert v.toStr(JString("full")) == Some("full");
    assert ParseRequest(v, args') == Ok(ParseRequest(v, args).value.(sudachiDictType := "full"));
    assert PyStr.Upper("full") == "FULL";
  }

  /** The reply depends on the converter only through the one construction
      and the one conversion of this call: there is no state carried between
      calls, such as a cache of converters. */
  lemma NoHiddenState(v: Validator, e1: Engine, e2: Engine, k: ToolKind, args: map<string, JsonValue>)
    requires ParseRequest(v, args).Ok?
    requires var req := ParseRequest(v, args).value;
      var config := KanjiConvConfig(req.separator, req.useCustomReadings, req.useUnidic, ResolveDictType(req.sudachiDictType));
      && e1.construct(config) == e2.construct(config)
      && Convert(e1, k, config, req.text) == Convert(e2, k, config, req.text)
    ensures CallTool(v, e1, ToolName(k), args) == CallTool(v, e2, ToolName(k), args)
  {
  }
}
