# kanjiconv-mcp: the tool-dispatch layer, modelled in Dafny

`kanjiconv-mcp` is a Model Context Protocol server. It exposes three
Japanese-text conversion tools: `convert_to_hiragana`, `convert_to_katakana`
and `convert_to_roman`. This project models the part of `main.py` that has
logic of its own:

- **the tool catalogue** (`list_tools`): three tools in a fixed order, all with
  the same parameter schema;
- **argument resolution**: the `ConvertRequest` field defaults and their
  validation, and `get_kanji_conv_instance`. That function upper-cases the
  Sudachi dictionary-type string, looks it up as a `SudachiDictType` member
  (`FULL` for any name that is not a member), and builds a fresh `KanjiConv`;
- **dispatch and the error envelope** (`call_tool`): the tool name selects a
  conversion method, an unknown name raises `ValueError("Unknown tool: …")`,
  and every exception comes back as the single text item
  `"Error: " + str(e)`.

The code is pure (no loops, no fields updated), so the model uses datatypes,
functions and lemmas. Modules:

| file | module | models |
|---|---|---|
| wrappers.dfy | `Wrappers` | `Option` and `Result` |
| pystr.dfy | `PyStr` | `str.upper()` as far as the enum lookup needs it |
| converter.dfy | `Converter` | `SudachiDictType`, the `KanjiConv` configuration, the `kanjiconv` library as uninterpreted functions, `get_kanji_conv_instance` |
| request.dfy | `Request` | `ConvertRequest`: JSON arguments, defaults, validation |
| catalogue.dfy | `Catalogue` | `list_tools`, tool names, the shared input schema |
| server.dfy | `Server` | `call_tool`: dispatch, caught exceptions, the reply |

External collaborators are parameters, so every lemma holds for all of them:

- `Request.Validator` stands for pydantic. It holds the coercion of a JSON
  value to a `str` or a `bool` field, and the text of its `ValidationError`,
  which is built from the arguments as given (pydantic prints the offending
  input) and the list of issues.
  `Request.Lax` states the only thing the model assumes about the coercion:
  a JSON string is accepted for a `str` field as it is, and a JSON boolean for
  a `bool` field.
- `Converter.Engine` stands for `kanjiconv`. It holds the `KanjiConv`
  constructor (which may raise) and `to_hiragana`, `to_katakana` and
  `to_roman` (each may return a string or raise). A converter is identified
  with the configuration it was built from.

Three facts about the code that its names and comments do not make obvious:

- There is no configuration cache. `get_kanji_conv_instance`'s docstring says
  "Get or create", but the function builds a new `KanjiConv` on every call.
  The three module-level instances at `main.py:24-26` are never used.
- An unrecognised dictionary type is never rejected. `getattr` falls back to
  `SudachiDictType.FULL`.
- There is one `except Exception` for every failure. The tool name is checked
  before the arguments are validated, and every failure is reported as
  `"Error: " + str(e)`.

## Model

| member | source | states |
|---|---|---|
| PyStr.UpperChar | main.py:43 | a lower-case ASCII letter becomes its capital; no lower-case ASCII letter survives; an ASCII capital comes only from an ASCII letter, dotless i or long s |
| PyStr.Upper | main.py:43 | `str.upper()` keeps the length and upper-cases each character in place |
| PyStr.UpperIdempotent | main.py:43 | upper-casing an already upper-cased name changes nothing |
| Converter.MemberName | main.py:43 | each member's attribute name is already upper-case, so an upper-cased request string can match it |
| Converter.MemberNamesDistinct | main.py:43 | no two members share an attribute name |
| Converter.ResolveDictType | main.py:43 | the dictionary tier is the member whose name is the upper-cased string; a string that names no member gives `FULL`, never an error |
| Converter.ResolveExactly | main.py:43 | both directions: a string resolves to a member exactly when its upper-case form is that member's name, or it names no member and the member is `FULL` |
| Converter.ResolveIgnoresCase | main.py:43 | two strings that agree up to case resolve to the same tier |
| Converter.ResolveMemberName | main.py:43 | each member's own name resolves to that member |
| Converter.GetKanjiConvInstance | main.py:39-46 | a converter is built with the separator and both flags unchanged and with the resolved tier; the constructor's exception is the result exactly when it raises |
| Request.Field | main.py:32-36 | one field resolves on its own: a present value must coerce, and is then taken; an absent field takes its default; otherwise the issue names the field as missing or of the wrong type |
| Request.ParseRequest | main.py:29-36 | validation succeeds exactly when every field is acceptable (present and coercible, or absent with a default). On success each field is resolved on its own: `text` is its coerced explicit value, and each other field is its coerced explicit value when present, else its default. On failure it lists at least one issue, and each issue names a field that is not acceptable |
| Request.OnlyTextGetsDefaults | main.py:32-36 | arguments naming only `text` resolve to separator `/`, custom readings on, UniDic off and dictionary type `full` |
| Request.MissingTextRejected | main.py:32 | without `text` validation fails, and the first issue is the missing `text` field |
| Request.ExplicitValuesKept | main.py:29-36 | when all five fields are given as JSON strings and booleans, each is taken as given (a request that gives only some fields is covered field by field by `Request.ParseRequest`) |
| Request.ExtraKeysIgnored | main.py:29-36 | adding a key that is not a field changes neither the resolved request nor which fields fail and how (the error text, which prints the input, is covered by `Server.Message`) |
| Catalogue.ParseToolName | main.py:156-181 | the `if`/`elif` chain picks the tool whose name is exactly the given string, and nothing when no tool has that name |
| Catalogue.ParseToolNameInverse | main.py:156-181 | each tool's name selects that tool |
| Catalogue.SchemaFor | main.py:56-83 | the input schema is an object schema whose properties are the request fields in declaration order; `text` is the only required field and the only one without a default; `sudachi_dict_type` is the only property with an enum |
| Catalogue.SchemasShared | main.py:52-149 | the three tools' schemas are the same except for the description of `text` |
| Catalogue.ToolFor | main.py:53-148 | each catalogue entry's name selects that same tool at dispatch, and the entry carries the shared schema |
| Catalogue.ListTools | main.py:49-149 | three tools in the order hiragana, katakana, roman, each carrying the shared schema |
| Catalogue.ListedIffDispatched | main.py:152-181 | a name is listed by `list_tools` exactly when `call_tool` dispatches it |
| Catalogue.SchemaDefaultsAreRequestDefaults | main.py:56-83 | every default the schema advertises is the value validation gives a request that omits that field |
| Catalogue.RequiredIffRejectedWhenAbsent | main.py:82 | a field is required by the schema exactly when validation rejects its absence |
| Catalogue.DeclaredTypesAccepted | main.py:59-79 | a value of each property's declared JSON type is accepted by validation |
| Catalogue.SchemaEnumResolvesToMembers | main.py:75-79 | the `sudachi_dict_type` property of every listed tool advertises exactly the enum `full`, `small`, `core`; these resolve, in order, to the three distinct members, and the advertised default is one of them |
| Server.Message | main.py:181-185 | the caught exception's `str(e)`: `"Unknown tool: " + name`; for pydantic's error, its description of the arguments as given together with the issues; otherwise the library exception's own message |
| Server.Convert | main.py:156-177 | `convert_to_hiragana` calls `to_hiragana`, `convert_to_katakana` calls `to_katakana`, and `convert_to_roman` calls `to_roman` |
| Server.Dispatch | main.py:152-181 | the result is an unknown-tool failure exactly when the name is not a tool; for a known tool, invalid arguments fail with validation's issues before any converter is built |
| Server.Render | main.py:162-185 | the reply item has type `text`; a converted string is returned unmodified, and a failure becomes `"Error: "` followed by its message |
| Server.CallTool | main.py:152-185 | every call returns exactly one text item, on success and on every failure |
| Server.UnknownToolReply | main.py:180-185 | an unlisted name replies exactly `"Error: Unknown tool: " + name`; a listed name never gets an unknown-tool failure |
| Server.UnknownToolText | main.py:181-185 | the unknown-tool failure renders as `"Error: Unknown tool: " + name` |
| Server.MissingTextReply | main.py:155-185 | a listed tool called without `text` fails validation with the missing `text` as the first issue, whatever the converter does; the reply is exactly `"Error: "` followed by pydantic's description of those arguments and issues |
| Server.ReplyText | main.py:161-185 | a conversion's string reaches the reply unchanged; every caught exception becomes `"Error: " + str(e)`, where `str(e)` is as the `Server.Message` row states |
| Server.EachToolCallsItsOwnMethod | main.py:156-178 | with valid arguments the converter is built from the request's separator and flags and the resolved tier. If the constructor raises, every tool replies `"Error: "` followed by its message. Otherwise `convert_to_hiragana`, `convert_to_katakana` and `convert_to_roman` reply with the string their own method of the library returns, unmodified, or `"Error: "` followed by the message that method raised |
| Server.DefaultConfiguration | main.py:156-161 | a call with only `text` converts with separator `/`, custom readings on, UniDic off and the FULL dictionary |
| Server.UnknownDictTypeActsAsFull | main.py:43-46 | a dictionary type that names no member gives the same result as `"full"` |
| Server.NoHiddenState | main.py:39-46 | the reply depends on the converter library only through this call's construction and conversion; no state such as a cache carries over between calls |

## Left out

- The MCP transport: `main()`, the stdio server loop, `asyncio.run`, `InitializationOptions` and JSON-RPC framing. These belong to the `mcp` library.
- Logging: the `logging` setup and the `logger.error` call in the `except` branch. They are side effects only.
- The conversion itself (segmentation, reading lookup, transliteration). It happens in `kanjiconv`, which is not part of this model. Its constructor and its three methods are uninterpreted parameters (`Converter.Engine`).
- The module-level `KanjiConv` instances at `main.py:24-26`. They are built once and never read.
- Caching and concurrency. The code has no cache, and the MCP runtime handles concurrency.
- pydantic's concrete coercion rules (for example, which strings or numbers it accepts for a `bool` field) and the wording of its messages. Both are parameters (`Request.Validator`). The model assumes only `Request.Lax`.
- Request.ParseRequest: the exact content of each issue list beyond "non-empty, and every issue names a field that was not acceptable"; pydantic's error details are not visible.
- PyStr.Upper: other Unicode case mappings are not modelled, such as ß to "SS", ligatures, Greek and Cyrillic. Their upper-case images never spell `FULL`, `SMALL` or `CORE`, so the dictionary-type lookup is unaffected.
- The concrete `.value` strings of `SudachiDictType` members. `getattr` could also find attribute names other than the three members. The enum's definition is not part of this model.
- Exceptions outside `Exception`, such as `KeyboardInterrupt`. The `except Exception` clause does not catch them.
- A conversion method that returns something other than a string. The model's `Converter.Engine` returns only strings. In the code, such a result would make `TextContent` raise inside the `try`, so the reply would be `"Error: "` followed by pydantic's message.
- test_client.py is a manual driver that only prints replies. It is not part of this model.
