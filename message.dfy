/**
 * `extractTextContent` of the chat page: the text a message bubble shows for
 * whatever content the stream delivered. It follows the backend's
 * `extractStringContent`, except that a string that looks like JSON is parsed
 * and extracted again, and that the fallback is indented JSON text.
 * `parse` stands for `JSON.parse` (`None` when it throws) and `pretty` for
 * `JSON.stringify(content, null, 2)`.
 */
module Message {
  import opened Text
  import opened Json
  import opened Agent

  /** `s.startsWith('[') || s.startsWith('{')`. */
  predicate LooksLikeJson(s: string)
  {
    s != [] && (s[0] == '[' || s[0] == '{')
  }

  /**
   * What `JSON.parse` guarantees and the recursion relies on: every string
   * inside the parsed value is shorter than the text it was parsed from,
   * because a string literal in JSON text carries its two quotes.
   */
  ghost predicate ParseShrinks(parse: string -> Option<Value>)
  {
    forall s :: parse(s).Some? ==> MaxStrLen(parse(s).value) < |s|
  }

  function ExtractTextContent(content: Value, parse: string -> Option<Value>, pretty: Value -> string): (r: Value)
    requires ParseShrinks(parse)
    ensures r.Str? || Truthy(r)
    ensures content.Null? || content.Undefined? ==> r == Str("")
    decreases MaxStrLen(content), content
  {
    match content
    case Str(s) =>
      if LooksLikeJson(s) && parse(s).Some? then ExtractTextContent(parse(s).value, parse, pretty)
      else content
    case Arr(items) => Str(Concat(KeptTexts(items)))
    case Obj(_) =>
      PropShrinks(content, "content");
      if Truthy(Prop(content, "text")) then Prop(content, "text")
      else if Truthy(Prop(content, "content")) then ExtractTextContent(Prop(content, "content"), parse, pretty)
      else Str(pretty(content))
    case Null => Str("")
    case Undefined => Str("")
    case _ => Str(pretty(content))
  }

  /** A string that does not look like JSON, or does not parse, is shown as it is. */
  lemma PlainStringShown(s: string, parse: string -> Option<Value>, pretty: Value -> string)
    requires ParseShrinks(parse)
    requires !LooksLikeJson(s) || parse(s).None?
    ensures ExtractTextContent(Str(s), parse, pretty) == Str(s)
  {
  }

  /** A string that looks like JSON and parses is replaced by the extraction of its value. */
  lemma JsonStringReparsed(s: string, v: Value, parse: string -> Option<Value>, pretty: Value -> string)
    requires ParseShrinks(parse)
    requires LooksLikeJson(s) && parse(s) == Some(v)
    ensures ExtractTextContent(Str(s), parse, pretty) == ExtractTextContent(v, parse, pretty)
  {
  }

  /** On an object a truthy `.text` wins, then a truthy `.content` is followed, else the indented JSON text. */
  lemma ObjectCases(ms: seq<Member>, parse: string -> Option<Value>, pretty: Value -> string)
    requires ParseShrinks(parse)
    ensures var o := Obj(ms);
      var r := ExtractTextContent(o, parse, pretty);
      (Truthy(Prop(o, "text")) ==> r == Prop(o, "text"))
      && (!Truthy(Prop(o, "text")) && Truthy(Prop(o, "content")) ==> r == ExtractTextContent(Prop(o, "content"), parse, pretty))
      && (!Truthy(Prop(o, "text")) && !Truthy(Prop(o, "content")) ==> r == Str(pretty(o)))
  {
  }

  /** Numbers and booleans, falsy ones included, are shown as their JSON text. */
  lemma ScalarsShownAsJson(content: Value, parse: string -> Option<Value>, pretty: Value -> string)
    requires ParseShrinks(parse)
    requires content.Num? || content.Bool?
    ensures ExtractTextContent(content, parse, pretty) == Str(pretty(content))
  {
  }

  /** On arrays the page and the backend extract the same text. */
  lemma AgreesOnArrays(items: seq<Value>, parse: string -> Option<Value>, pretty: Value -> string, stringify: Value -> string)
    requires ParseShrinks(parse)
    ensures ExtractTextContent(Arr(items), parse, pretty) == ExtractStringContent(Arr(items), stringify)
    ensures ExtractTextContent(Arr(items), parse, pretty).Str?
  {
  }

  /**
   * Values whose `.text`/`.content` chain ends in a truthy `.text`, an array
   * or a string that does not look like JSON.
   */
  predicate EndsInText(content: Value)
  {
    match content
    case Str(s) => !LooksLikeJson(s)
    case Arr(_) => true
    case Obj(_) =>
      if Truthy(Prop(content, "text")) then true
      else if Truthy(Prop(content, "content")) then EndsInText(Prop(content, "content"))
      else false
    case _ => false
  }

  /** Along such a chain the page shows exactly what the backend extracted. */
  lemma {:induction false} AgreesAlongChain(content: Value, parse: string -> Option<Value>, pretty: Value -> string, stringify: Value -> string)
    requires ParseShrinks(parse)
    requires EndsInText(content)
    ensures ExtractTextContent(content, parse, pretty) == ExtractStringContent(content, stringify)
    decreases content
  {
    match content
    case Str(_) =>
    case Arr(_) =>
    case Obj(_) =>
      if !Truthy(Prop(content, "text")) {
        AgreesAlongChain(Prop(content, "content"), parse, pretty, stringify);
      }
  }

  /**
   * Where the two differ: a falsy number or `false` is `''` for the backend
   * but its JSON text on the page, a string that looks like JSON is kept by
   * the backend but parsed on the page, and an object without a truthy
   * `.text` or `.content` is compact JSON text for the backend but indented
   * JSON text on the page.
   */
  lemma Divergences(s: string, v: Value, ms: seq<Member>, parse: string -> Option<Value>, pretty: Value -> string, stringify: Value -> string)
    requires ParseShrinks(parse)
    requires LooksLikeJson(s) && parse(s) == Some(v)
    ensures ExtractStringContent(Num(0), stringify) == Str("")
    ensures ExtractTextContent(Num(0), parse, pretty) == Str(pretty(Num(0)))
    ensures ExtractStringContent(Bool(false), stringify) == Str("")
    ensures ExtractTextContent(Bool(false), parse, pretty) == Str(pretty(Bool(false)))
    ensures !Truthy(Prop(Obj(ms), "text")) && !Truthy(Prop(Obj(ms), "content")) ==>
              ExtractStringContent(Obj(ms), stringify) == Str(stringify(Obj(ms)))
              && ExtractTextContent(Obj(ms), parse, pretty) == Str(pretty(Obj(ms)))
    ensures ExtractStringContent(Str(s), stringify) == Str(s)
    ensures ExtractTextContent(Str(s), parse, pretty) == ExtractTextContent(v, parse, pretty)
  {
    FalseDiverges(parse, pretty, stringify);
    ObjectFallbackDiverges(ms, parse, pretty, stringify);
  }

  /** `false` is `''` for the backend but its JSON text on the page. */
  lemma FalseDiverges(parse: string -> Option<Value>, pretty: Value -> string, stringify: Value -> string)
    requires ParseShrinks(parse)
    ensures ExtractStringContent(Bool(false), stringify) == Str("")
    ensures ExtractTextContent(Bool(false), parse, pretty) == Str(pretty(Bool(false)))
  {
  }

  /** An object without a truthy `.text` or `.content`: compact JSON text for the backend, indented on the page. */
  lemma ObjectFallbackDiverges(ms: seq<Member>, parse: string -> Option<Value>, pretty: Value -> string, stringify: Value -> string)
    requires ParseShrinks(parse)
    ensures !Truthy(Prop(Obj(ms), "text")) && !Truthy(Prop(Obj(ms), "content")) ==>
              ExtractStringContent(Obj(ms), stringify) == Str(stringify(Obj(ms)))
              && ExtractTextContent(Obj(ms), parse, pretty) == Str(pretty(Obj(ms)))
  {
  }
}
