/** The static tool catalogue returned by `list_tools`: three tools that
    share one parameter schema and differ only in their target script. */
module Catalogue {
  import opened Wrappers
  import Request
  import Converter
  import PyStr

  /** The three tools, one per conversion method of the converter. */
  datatype ToolKind = Hiragana | Katakana | Roman

  function ToolName(k: ToolKind): string {
    match k
    case Hiragana => "convert_to_hiragana"
    case Katakana => "convert_to_katakana"
    case Roman => "convert_to_roman"
  }

  /** The `if`/`elif` chain of `call_tool` on the tool name: the tool with
      exactly that name, or `None` for any other string. */
  function ParseToolName(name: string): (r: Option<ToolKind>)
    ensures r.Some? ==> ToolName(r.value) == name
    ensures r.None? ==> forall k: ToolKind :: ToolName(k) != name
  {
    if name == "convert_to_hiragana" then Some(Hiragana)
    else if name == "convert_to_katakana" then Some(Katakana)
    else if name == "convert_to_roman" then Some(Roman)
    else None
  }

  /** The words naming each tool's target script in its descriptions. */
  function Target(k: ToolKind): string {
    match k
    case Hiragana => "hiragana"
    case Katakana => "katakana"
    case Roman => "roman alphabet"
  }

  /** JSON Schema pieces used by the catalogue. */
  datatype JsonType = StringType | BooleanType
  datatype DefaultValue = StringDefault(s: string) | BooleanDefault(b: bool)
  datatype Property = Property(
    name: string,
    jsonType: JsonType,
    default: Option<DefaultValue>,
    allowed: Option<seq<string>>,
    description: string)
  datatype InputSchema = InputSchema(schemaType: string, properties: seq<Property>, required: seq<string>)
  datatype Tool = Tool(name: string, description: string, inputSchema: InputSchema)

  const DictTypeNames: seq<string> := ["full", "small", "core"]

  /** The schema shared by the three tools: an object whose properties are
      exactly the request's fields in declaration order, with `text` the one
      required field and the only one without a default; `sudachi_dict_type`
      is the only one with an enumeration of allowed values; only the
      description of `text` names the tool's target script. */
  function SchemaFor(k: ToolKind): (schema: InputSchema)
    ensures schema.schemaType == "object"
    ensures schema.required == [Request.TextField]
    ensures |schema.properties| == |Request.FieldNames|
    ensures forall j :: 0 <= j < |schema.properties| ==> schema.properties[j].name == Request.FieldNames[j]
    ensures forall j :: 0 <= j < |schema.properties| ==>
      (schema.properties[j].default.None? <==> schema.properties[j].name in schema.required)
    ensures forall j :: 0 <= j < |schema.properties| ==>
      (schema.properties[j].allowed.Some? <==> schema.properties[j].name == Request.SudachiDictTypeField)
  {
    InputSchema(
      "object",
      [ Property(Request.TextField, StringType, None, None,
                 "Japanese text to convert to " + Target(k)),
        Property(Request.SeparatorField, StringType, Some(StringDefault("/")), None,
                 "Separator character between words (default: '/', use '' for no separator)"),
        Property(Request.UseCustomReadingsField, BooleanType, Some(BooleanDefault(true)), None,
                 "Use custom readings dictionary as fallback"),
        Property(Request.UseUnidicField, BooleanType, Some(BooleanDefault(false)), None,
                 "Use UniDic for improved reading accuracy"),
        Property(Request.SudachiDictTypeField, StringType, Some(StringDefault("full")), Some(DictTypeNames),
                 "Type of Sudachi dictionary to use")
      ],
      [Request.TextField])
  }

  /** The three schemas are one schema: they agree on everything but the
      description of `text`. */
  lemma SchemasShared(k1: ToolKind, k2: ToolKind)
    ensures SchemaFor(k1).properties[1..] == SchemaFor(k2).properties[1..]
    ensures SchemaFor(k1).properties[0].(description := "") == SchemaFor(k2).properties[0].(description := "")
    ensures SchemaFor(k1).required == SchemaFor(k2).required
  {
  }

  /** The catalogue entry of one tool: its name selects that tool again at
      dispatch, and it carries the shared schema. */
  function ToolFor(k: ToolKind): (t: Tool)
    ensures ParseToolName(t.name) == Some(k)
    ensures t.inputSchema == SchemaFor(k)
  {
    Tool(ToolName(k), "Convert Japanese text (including kanji) to " + Target(k), SchemaFor(k))
  }

  const ToolOrder: seq<ToolKind> := [Hiragana, Katakana, Roman]

  /** `list_tools`: the three tools in the fixed order hiragana, katakana,
      roman, each carrying the shared schema. */
  function ListTools(): (tools: seq<Tool>)
    ensures |tools| == |ToolOrder| == 3
    ensures forall i :: 0 <= i < |tools| ==> tools[i].name == ToolName(ToolOrder[i])
    ensures forall i :: 0 <= i < |tools| ==> tools[i].inputSchema == SchemaFor(ToolOrder[i])
  {
    [ToolFor(Hiragana), ToolFor(Katakana), ToolFor(Roman)]
  }

  /** Every listed tool is the catalogue entry of some tool kind. */
  lemma ListedToolIsToolFor(t: Tool) returns (k: ToolKind)
    requires t in ListTools()
    ensures t == ToolFor(k)
  {
    var tools := ListTools();
    var i :| 0 <= i < |tools| && tools[i] == t;
    k := ToolOrder[i];
  }

  function Names(tools: seq<Tool>): (names: seq<string>)
    ensures |names| == |tools|
    ensures forall i :: 0 <= i < |tools| ==> names[i] == tools[i].name
  {
    if tools == [] then [] else [tools[0].name] + Names(tools[1..])
  }

  /** A name is listed exactly when `call_tool` dispatches it: the catalogue
      and the dispatcher agree on the set of tools. */
  lemma ListedIffDispatched(name: string)
    ensures name in Names(ListTools()) <==> ParseToolName(name).Some?
  {
  }

  /** Round trip between tool kinds and their names. */
  lemma ParseToolNameInverse(k: ToolKind)
    ensures ParseToolName(ToolName(k)) == Some(k)
  {
  }

  /** The value a resolved request holds for a named field, as a schema default. */
  function RequestField(req: Request.ConvertRequest, name: string): Option<DefaultValue> {
    if name == Request.TextField then Some(StringDefault(req.text))
    else if name == Request.SeparatorField then Some(StringDefault(req.separator))
    else if name == Request.UseCustomReadingsField then Some(BooleanDefault(req.useCustomReadings))
    else if name == Request.UseUnidicField then Some(BooleanDefault(req.useUnidic))
    else if name == Request.SudachiDictTypeField then Some(StringDefault(req.sudachiDictType))
    else None
  }

  /** Every default a listed schema advertises is the default validation
      applies: a request naming only `text` resolves each defaulted field to
      the schema's default. */
  lemma SchemaDefaultsAreRequestDefaults(v: Request.Validator, text: string, t: Tool, p: Property)
    requires Request.Lax(v)
    requires t in ListTools() && p in t.inputSchema.properties && p.default.Some?
    ensures Request.ParseRequest(v, map[Request.TextField := Request.JString(text)]).Ok?
    ensures RequestField(Request.ParseRequest(v, map[Request.TextField := Request.JString(text)]).value, p.name) == p.default
  {
  }

  /** The schema's required fields are exactly the fields whose absence
      validation rejects. */
  lemma RequiredIffRejectedWhenAbsent(v: Request.Validator, t: Tool, p: Property)
    requires t in ListTools() && p in t.inputSchema.properties
    ensures p.name in t.inputSchema.required <==> !Request.Acceptable(v, map[], p.name)
  {
  }

  /** A value of each property's declared JSON type is accepted for it. */
  lemma DeclaredTypesAccepted(v: Request.Validator, t: Tool, p: Property, s: string, b: bool)
    requires Request.Lax(v)
    requires t in ListTools() && p in t.inputSchema.properties
    ensures p.jsonType == StringType ==> Request.Acceptable(v, map[p.name := Request.JString(s)], p.name)
    ensures p.jsonType == BooleanType ==> Request.Acceptable(v, map[p.name := Request.JBool(b)], p.name)
  {
  }

  /** The `sudachi_dict_type` property advertises the enumeration
      `full`, `small`, `core`, whose values resolve, in order, to the three
      distinct members `FULL`, `SMALL`, `CORE`; the advertised default is
      one of them. */
  lemma SchemaEnumResolvesToMembers(t: Tool, p: Property)
    requires t in ListTools() && p in t.inputSchema.properties && p.name == Request.SudachiDictTypeField
    ensures p.allowed == Some(["full", "small", "core"])
    ensures Converter.ResolveDictType(p.allowed.value[0]) == Converter.Full
    ensures Converter.ResolveDictType(p.allowed.value[1]) == Converter.Small
    ensures Converter.ResolveDictType(p.allowed.value[2]) == Converter.Core
    ensures p.default.Some? && p.default.value.StringDefault? && p.default.value.s in p.allowed.value
  {
    var k := ListedToolIsToolFor(t);
    assert p.allowed.value == DictTypeNames;
    assert PyStr.Upper("small") == "SMALL";
    assert PyStr.Upper("core") == "CORE";
  }
}
