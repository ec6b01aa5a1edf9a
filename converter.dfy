/** The boundary to the external `kanjiconv` library: the Sudachi dictionary
    tier, the configuration a `KanjiConv` is built from, the library itself as
    uninterpreted functions, and `get_kanji_conv_instance`, which turns the
    request's dictionary-type string into a tier and builds a converter. */
module Converter {
  import opened Wrappers
  import PyStr

  /** The members of `SudachiDictType` the server can name. */
  datatype DictType = Full | Small | Core

  /** Each member's attribute name, the key `getattr` looks it up by. The
      names are already upper-case, so an upper-cased string can equal one. */
  function MemberName(d: DictType): (name: string)
    ensures PyStr.Upper(name) == name
  {
    match d
    case Full => "FULL"
    case Small => "SMALL"
    case Core => "CORE"
  }

  /** `getattr(SudachiDictType, name.upper(), SudachiDictType.FULL)`: the member
      whose attribute name is the upper-cased string, and `FULL` for any string
      that names no member. Never an error. */
  function ResolveDictType(name: string): (d: DictType)
    ensures MemberName(d) == PyStr.Upper(name)
      || (d == Full && forall m: DictType :: MemberName(m) != PyStr.Upper(name))
  {
    var key := PyStr.Upper(name);
    if key == "SMALL" then Small
    else if key == "CORE" then Core
    else Full
  }

  /** The keyword arguments of the `KanjiConv` constructor. */
  datatype KanjiConvConfig = KanjiConvConfig(
    separator: string,
    useCustomReadings: bool,
    useUnidic: bool,
    dictType: DictType)

  /** What calling the `KanjiConv` constructor does: it builds a converter,
      or it raises an exception with a message. */
  datatype Construction = Builds | Raises(message: string)

  /** The `kanjiconv` library as the server sees it. `construct` is the
      constructor.
      The three conversions either return a string or raise with a message.
      A constructed converter is determined by its configuration, so it is
      identified with that configuration here. */
  datatype Engine = Engine(
    construct: KanjiConvConfig -> Construction,
    toHiragana: (KanjiConvConfig, string) -> Result<string, string>,
    toKatakana: (KanjiConvConfig, string) -> Result<string, string>,
    toRoman: (KanjiConvConfig, string) -> Result<string, string>)

  /** `get_kanji_conv_instance`: resolves the dictionary tier and builds a
      fresh converter from the four settings. There is no cache: the
      constructor is consulted on every call. */
  function GetKanjiConvInstance(
    engine: Engine, separator: string, useCustomReadings: bool, useUnidic: bool, sudachiDictType: string
  ): (r: Result<KanjiConvConfig, string>)
    ensures r.Ok? <==> engine.construct(KanjiConvConfig(separator, useCustomReadings, useUnidic, ResolveDictType(sudachiDictType))).Builds?
    ensures r.Ok? ==>
      && r.value.separator == separator
      && r.value.useCustomReadings == useCustomReadings
      && r.value.useUnidic == useUnidic
      && r.value.dictType == ResolveDictType(sudachiDictType)
    ensures r.Err? ==> Raises(r.error) == engine.construct(KanjiConvConfig(separator, useCustomReadings, useUnidic, ResolveDictType(sudachiDictType)))
  {
    var config := KanjiConvConfig(separator, useCustomReadings, useUnidic, ResolveDictType(sudachiDictType));
    match engine.construct(config)
    case Raises(message) => Err(message)
    case Builds => Ok(config)
  }

  /** No two members share an attribute name. */
  lemma MemberNamesDistinct(d: DictType, e: DictType)
    ensures MemberName(d) == MemberName(e) <==> d == e
  {
  }

  /** Looking a member up by its own name finds it. */
  lemma ResolveMemberName(d: DictType)
    ensures ResolveDictType(MemberName(d)) == d
  {
  }

  /** The lookup ignores case: two strings that agree up to case resolve to
      the same tier. */
  lemma ResolveIgnoresCase(s: string, t: string)
    requires |s| == |t|
    requires forall i :: 0 <= i < |s| ==> PyStr.UpperChar(s[i]) == PyStr.UpperChar(t[i])
    ensures ResolveDictType(s) == ResolveDictType(t)
  {
  }

  /** A string whose upper-case form names a member resolves to exactly that
      member, and every other string resolves to `FULL`: both directions. */
  lemma ResolveExactly(name: string, d: DictType)
    ensures ResolveDictType(name) == d <==>
      (MemberName(d) == PyStr.Upper(name)
       || (d == Full && forall m: DictType :: MemberName(m) != PyStr.Upper(name)))
  {
    var r := ResolveDictType(name);
    if MemberName(d) == PyStr.Upper(name) {
      MemberNamesDistinct(r, d);
    }
  }
}
