/** The `ConvertRequest` model: the argument map a tool call carries, the
    field defaults, and its validation by pydantic (`ConvertRequest(**arguments)`). */
module Request {
  import opened Wrappers

  /** A JSON value as it arrives in a tool call's `arguments`. */
  datatype JsonValue =
    | JNull
    | JBool(b: bool)
    | JNumber(n: real)
    | JString(s: string)
    | JArray(items: seq<JsonValue>)
    | JObject(members: map<string, JsonValue>)

  /** What validation reports about one field. */
  datatype IssueKind = Missing | InvalidType
  datatype Issue = Issue(field: string, kind: IssueKind)

  /** pydantic, as the server sees it: how it coerces a value to a `str` and
      to a `bool` field (`None` when it refuses the value), and the message
      `str(e)` of the validation error it raises. That message is built from
      the arguments it was given (it prints the offending input) and the
      list of issues. */
  datatype Validator = Validator(
    toStr: JsonValue -> Option<string>,
    toBool: JsonValue -> Option<bool>,
    describe: (map<string, JsonValue>, seq<Issue>) -> string)

  /** Any coercion pydantic applies accepts a JSON string for a `str` field
      and a JSON boolean for a `bool` field as they are. */
  ghost predicate Lax(v: Validator) {
    && (forall s: string :: v.toStr(JString(s)) == Some(s))
    && (forall b: bool :: v.toBool(JBool(b)) == Some(b))
  }

  /** The declared fields, in declaration order, and their defaults. */
  const TextField := "text"
  const SeparatorField := "separator"
  const UseCustomReadingsField := "use_custom_readings"
  const UseUnidicField := "use_unidic"
  const SudachiDictTypeField := "sudachi_dict_type"
  const FieldNames: seq<string> :=
    [TextField, SeparatorField, UseCustomReadingsField, UseUnidicField, SudachiDictTypeField]

  const DefaultSeparator: string := "/"
  const DefaultUseCustomReadings: bool := true
  const DefaultUseUnidic: bool := false
  const DefaultSudachiDictType: string := "full"

  datatype ConvertRequest = ConvertRequest(
    text: string,
    separator: string,
    useCustomReadings: bool,
    useUnidic: bool,
    sudachiDictType: string)

  /** Whether validation accepts what `args` holds for one declared field:
      a present value must coerce to the field's type, and an absent one
      must have a default. */
  ghost predicate Acceptable(v: Validator, args: map<string, JsonValue>, key: string) {
    if key in args then
      if key == UseCustomReadingsField || key == UseUnidicField then v.toBool(args[key]).Some?
      else v.toStr(args[key]).Some?
    else
      key != TextField
  }

  /** Whether `value` is what a field resolves to on its own: the coerced
      explicit value when the key is present, else the default. */
  ghost predicate ResolvesTo<T>(args: map<string, JsonValue>, key: string, coerce: JsonValue -> Option<T>, default: T, value: T) {
    if key in args then coerce(args[key]) == Some(value) else value == default
  }

  /** One field: the coerced explicit value, else the default, else an issue
      that names the field and says whether it was missing or of the wrong type. */
  function Field<T>(args: map<string, JsonValue>, key: string, coerce: JsonValue -> Option<T>, default: Option<T>): (r: Result<T, Issue>)
    ensures key in args ==> (r.Ok? <==> coerce(args[key]).Some?)
    ensures key !in args ==> (r.Ok? <==> default.Some?)
    ensures r.Ok? && key in args ==> coerce(args[key]) == Some(r.value)
    ensures r.Ok? && key !in args ==> default == Some(r.value)
    ensures r.Err? ==> r.error == Issue(key, if key in args then InvalidType else Missing)
  {
    if key in args then
      match coerce(args[key])
      case Some(x) => Ok(x)
      case None => Err(Issue(key, InvalidType))
    else
      match default
      case Some(d) => Ok(d)
      case None => Err(Issue(key, Missing))
  }

  function IssuesOf<T>(r: Result<T, Issue>): seq<Issue> {
    if r.Err? then [r.error] else []
  }

  /** `ConvertRequest(**arguments)`: keys that are not fields are ignored;
      every field is validated and all issues are reported together, in
      field order. On success each field is resolved on its own: its
      explicit value when present, else its default; `text` has no default. */
  function ParseRequest(v: Validator, args: map<string, JsonValue>): (r: Result<ConvertRequest, seq<Issue>>)
    ensures r.Ok? <==> forall k :: k in FieldNames ==> Acceptable(v, args, k)
    ensures r.Err? ==> r.error != []
    ensures r.Err? ==> forall i :: 0 <= i < |r.error| ==> r.error[i].field in FieldNames && !Acceptable(v, args, r.error[i].field)
    ensures r.Ok? ==> TextField in args && v.toStr(args[TextField]) == Some(r.value.text)
    ensures r.Ok? ==> ResolvesTo(args, SeparatorField, v.toStr, DefaultSeparator, r.value.separator)
    ensures r.Ok? ==> ResolvesTo(args, UseCustomReadingsField, v.toBool, DefaultUseCustomReadings, r.value.useCustomReadings)
    ensures r.Ok? ==> ResolvesTo(args, UseUnidicField, v.toBool, DefaultUseUnidic, r.value.useUnidic)
    ensures r.Ok? ==> ResolvesTo(args, SudachiDictTypeField, v.toStr, DefaultSudachiDictType, r.value.sudachiDictType)
  {
    var text := Field(args, TextField, v.toStr, None);
    var separator := Field(args, SeparatorField, v.toStr, Some(DefaultSeparator));
    var useCustomReadings := Field(args, UseCustomReadingsField, v.toBool, Some(DefaultUseCustomReadings));
    var useUnidic := Field(args, UseUnidicField, v.toBool, Some(DefaultUseUnidic));
    var sudachiDictType := Field(args, SudachiDictTypeField, v.toStr, Some(DefaultSudachiDictType));
    assert text.Ok? <==> Acceptable(v, args, TextField);
    assert separator.Ok? <==> Acceptable(v, args, SeparatorField);
    assert useCustomReadings.Ok? <==> Acceptable(v, args, UseCustomReadingsField);
    assert useUnidic.Ok? <==> Acceptable(v, args, UseUnidicField);
    assert sudachiDictType.Ok? <==> Acceptable(v, args, SudachiDictTypeField);
    if text.Ok? && separator.Ok? && useCustomReadings.Ok? && useUnidic.Ok? && sudachiDictType.Ok? then
      Ok(ConvertRequest(text.value, separator.value, useCustomReadings.value, useUnidic.value, sudachiDictType.value))
    else
      Err(IssuesOf(text) + IssuesOf(separator) + IssuesOf(useCustomReadings) + IssuesOf(useUnidic) + IssuesOf(sudachiDictType))
  }

  /** A request naming only `text` gets every other field's default. */
  lemma OnlyTextGetsDefaults(v: Validator, text: string)
    requires Lax(v)
    ensures ParseRequest(v, map[TextField := JString(text)])
      == Ok(ConvertRequest(text, "/", true, false, "full"))
  {
  }

  /** Without `text` validation fails, and the first issue is the missing
      `text` field. */
  lemma MissingTextRejected(v: Validator, args: map<string, JsonValue>)
    requires TextField !in args
    ensures ParseRequest(v, args).Err?
    ensures ParseRequest(v, args).error[0] == Issue(TextField, Missing)
  {
  }

  /** Explicit values of the right JSON type are taken as they are. */
  lemma ExplicitValuesKept(
    v: Validator, args: map<string, JsonValue>,
    text: string, separator: string, useCustomReadings: bool, useUnidic: bool, sudachiDictType: string)
    requires Lax(v)
    requires TextField in args && args[TextField] == JString(text)
    requires SeparatorField in args && args[SeparatorField] == JString(separator)
    requires UseCustomReadingsField in args && args[UseCustomReadingsField] == JBool(useCustomReadings)
    requires UseUnidicField in args && args[UseUnidicField] == JBool(useUnidic)
    requires SudachiDictTypeField in args && args[SudachiDictTypeField] == JString(sudachiDictType)
    ensures ParseRequest(v, args) == Ok(ConvertRequest(text, separator, useCustomReadings, useUnidic, sudachiDictType))
  {
  }

  /** Keys that are not fields of the request do not change the outcome. */
  lemma ExtraKeysIgnored(v: Validator, args: map<string, JsonValue>, key: string, value: JsonValue)
    requires key !in FieldNames
    ensures ParseRequest(v, args[key := value]) == ParseRequest(v, args)
  {
  }
}
