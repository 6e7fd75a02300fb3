/** The response envelope shared by both routers, and the return styles that
    shape it. The envelope is the model's `__dict__`: a map from field name
    to value. */
module Dependencies {
  import opened Wrappers
  import opened Values
  import opened Extraction
  import opened Util

  /** The fields a BASIC response keeps. */
  const BasicFormatKeys: seq<string> := ["request_error", "path_data", "used_cache"]

  /** How much of the envelope a caller wants back. */
  datatype ReturnStyle = BASIC | DATA_ONLY | VERBOSE

  /** The string value of each return style. */
  function ReturnStyleName(s: ReturnStyle): string {
    match s
    case BASIC => "BASIC"
    case DATA_ONLY => "DATA_ONLY"
    case VERBOSE => "VERBOSE"
  }

  /** Reads a return style back from its string value. */
  function ParseReturnStyle(s: string): (r: Option<ReturnStyle>)
    ensures r.Some? ==> ReturnStyleName(r.value) == s
  {
    if s == "BASIC" then Some(BASIC)
    else if s == "DATA_ONLY" then Some(DATA_ONLY)
    else if s == "VERBOSE" then Some(VERBOSE)
    else None
  }

  /** Every return style survives the trip through its string value. */
  lemma ReturnStyleNameRoundTrip(s: ReturnStyle)
    ensures ParseReturnStyle(ReturnStyleName(s)) == Some(s)
  {
  }

  // ---------------------------------------------------------------------------
  // make_basic, the in-place projection

  /** `ReturnStyles.make_basic`: deletes, one by one, every key of a snapshot
      of the keys that is not allowed, and hands back the argument's new
      contents. */
  method MakeBasic(sectorData: map<string, Val>, basicKeys: seq<string>) returns (result: map<string, Val>)
    ensures forall k :: k in result <==> k in sectorData && k in basicKeys
    ensures forall k :: k in result ==> result[k] == sectorData[k]
    ensures result == AsBasic(sectorData, basicKeys)
  {
    result := sectorData;
    var keys := sectorData.Keys;
    while keys != {}
      invariant keys <= sectorData.Keys
      invariant forall k :: k in result <==> k in sectorData && (k in keys || k in basicKeys)
      invariant forall k :: k in result ==> result[k] == sectorData[k]
      decreases keys
    {
      var key :| key in keys;
      if key !in basicKeys {
        result := result - {key};
      }
      keys := keys - {key};
    }
  }

  /** A mutable dictionary, for the in-place behaviour of `make_basic`. */
  class Dict {
    var entries: map<string, Val>

    constructor (entries: map<string, Val>)
      ensures this.entries == entries
    {
      this.entries := entries;
    }
  }

  /** `make_basic` on a dictionary object: the argument itself is changed,
      and it is the object returned. */
  method MakeBasicInPlace(sectorData: Dict, basicKeys: seq<string>) returns (r: Dict)
    modifies sectorData
    ensures r == sectorData
    ensures sectorData.entries == AsBasic(old(sectorData.entries), basicKeys)
  {
    sectorData.entries := MakeBasic(sectorData.entries, basicKeys);
    r := sectorData;
  }

  // ---------------------------------------------------------------------------
  // The envelope

  /** The fields of a response envelope. `basic_format_keys` is one of them:
      an unannotated class attribute with a default becomes a model field. */
  const ResponseFields: set<string> :=
    {"request_item", "request_error", "parser_error", "used_cache",
     "cache_info", "path_data", "raw_data", "basic_format_keys"}

  function NumOrNull(n: Option<int>): Val {
    match n
    case Some(v) => Num(v)
    case None => Null
  }

  function StrOrNull(s: Option<string>): Val {
    match s
    case Some(v) => Str(v)
    case None => Null
  }

  /** `RequestError(code=status_code, msg=status_msg)`: the reason pair
      becomes a two-element list. */
  function RequestErrorVal(code: int, msg: Option<(string, string)>): Val {
    var m := match msg
      case Some(pair) => List([Str(pair.0), Str(pair.1)])
      case None => Null;
    Map(map["code" := Num(code), "msg" := m])
  }

  /** Reads a status code and reason pair back out of a request error. */
  function DecodeRequestError(v: Val): Option<(int, Option<(string, string)>)> {
    if v.Map? && "code" in v.entries && "msg" in v.entries && v.entries["code"].Num? then
      var m := v.entries["msg"];
      if m.Null? then Some((v.entries["code"].n, None))
      else if m.List? && |m.items| == 2 && m.items[0].Str? && m.items[1].Str? then
        Some((v.entries["code"].n, Some((m.items[0].s, m.items[1].s))))
      else None
    else None
  }

  /** A request error loses nothing. */
  lemma RequestErrorRoundTrip(code: int, msg: Option<(string, string)>)
    ensures DecodeRequestError(RequestErrorVal(code, msg)) == Some((code, msg))
  {
  }

  /** `ParserError(code=error_code, msg=error_msg)`. */
  function ParserErrorVal(e: ErrorFields): Val {
    Map(map["code" := NumOrNull(e.code), "msg" := StrOrNull(e.msg)])
  }

  /** Reads the error attributes back out of a parser error. */
  function DecodeParserError(v: Val): Option<ErrorFields> {
    if v.Map? && "code" in v.entries && "msg" in v.entries then
      var c := v.entries["code"];
      var m := v.entries["msg"];
      if (c.Num? || c.Null?) && (m.Str? || m.Null?) then
        Some(ErrorFields(if c.Num? then Some(c.n) else None, if m.Str? then Some(m.s) else None))
      else None
    else None
  }

  /** A parser error loses nothing. */
  lemma ParserErrorRoundTrip(e: ErrorFields)
    ensures DecodeParserError(ParserErrorVal(e)) == Some(e)
  {
  }

  /** The fields of a `CacheInfo`. */
  const CacheInfoFields: set<string> := {"original_request_time", "age", "time_remaining", "retrieved_count"}

  /** `CacheInfo.from_cached_item`: `None` when there is no cached item,
      otherwise the item's four fields. */
  function CacheInfoFromCachedItem(item: Option<CacheItem>): (r: Val)
    ensures item.None? <==> r == Null
    ensures item.Some? ==> r.Map? && r.entries.Keys == CacheInfoFields
    ensures item.Some? ==> r.entries["original_request_time"] == Num(item.value.createdDatetime)
    ensures item.Some? ==> r.entries["age"] == Num(item.value.age)
    ensures item.Some? ==> r.entries["time_remaining"] == Num(item.value.timeRemaining)
    ensures item.Some? ==> r.entries["retrieved_count"] == Num(item.value.retrievedCount)
  {
    match item
    case None => Null
    case Some(c) =>
      Map(map["original_request_time" := Num(c.createdDatetime), "age" := Num(c.age),
               "time_remaining" := Num(c.timeRemaining), "retrieved_count" := Num(c.retrievedCount)])
  }

  /** A request model as echoed in `request_item`: its five fields, the
      enums by their string values. */
  function RequestItemVal(url: string, path: string, pathType: PathType, userAgent: string,
                          returnStyle: ReturnStyle): (r: Val)
    ensures r.Map? && r.entries.Keys == {"url", "path", "path_type", "user_agent", "return_style"}
    ensures r.entries["url"] == Str(url) && r.entries["path"] == Str(path)
    ensures r.entries["path_type"] == Str(PathTypeName(pathType))
    ensures r.entries["user_agent"] == Str(userAgent)
    ensures r.entries["return_style"] == Str(ReturnStyleName(returnStyle))
  {
    Map(map["url" := Str(url), "path" := Str(path), "path_type" := Str(PathTypeName(pathType)),
            "user_agent" := Str(userAgent), "return_style" := Str(ReturnStyleName(returnStyle))])
  }

  /** `BaseResponse.from_parser`: every field is taken from the parser. */
  function FromParser(requestItem: Val, p: DocumentParser): (env: map<string, Val>)
    ensures env.Keys == ResponseFields
    ensures env["request_item"] == requestItem
    ensures DecodeRequestError(env["request_error"]) == Some((p.statusCode, StatusMsg(p.statusCode)))
    ensures DecodeParserError(env["parser_error"]) == Some(p.errors)
    ensures env["path_data"] == p.pathData
    ensures env["raw_data"] == Str(p.rawData)
    ensures env["used_cache"] == Bool(p.cachedItem.Some?)
    ensures env["cache_info"] == Null <==> p.cachedItem.None?
    ensures env["basic_format_keys"] == List(Strs(BasicFormatKeys))
  {
    RequestErrorRoundTrip(p.statusCode, StatusMsg(p.statusCode));
    ParserErrorRoundTrip(p.errors);
    map[
      "request_item" := requestItem,
      "request_error" := RequestErrorVal(p.statusCode, StatusMsg(p.statusCode)),
      "parser_error" := ParserErrorVal(p.errors),
      "path_data" := p.pathData,
      "raw_data" := Str(p.rawData),
      "used_cache" := Bool(p.cachedItem.Some?),
      "cache_info" := CacheInfoFromCachedItem(p.cachedItem),
      "basic_format_keys" := List(Strs(BasicFormatKeys))
    ]
  }

  // ---------------------------------------------------------------------------
  // as_basic, the copying projection

  /** `BaseResponse.as_basic`: a copy of the envelope holding only the
      allowed fields. The envelope itself is a value and stays as it was. */
  function AsBasic(env: map<string, Val>, keys: seq<string>): (r: map<string, Val>)
    ensures forall k :: k in r <==> k in env && k in keys
    ensures forall k :: k in r ==> r[k] == env[k]
  {
    map k | k in env && k in keys :: env[k]
  }

  /** Projecting an already projected envelope changes nothing. */
  lemma AsBasicIdempotent(env: map<string, Val>, keys: seq<string>)
    ensures AsBasic(AsBasic(env, keys), keys) == AsBasic(env, keys)
  {
  }

  /** A BASIC projection of a full envelope holds exactly the three allowed
      fields, with their values; the request echo, the parser error, the
      cache details and the raw document are gone. */
  lemma {:induction false} BasicOfEnvelope(requestItem: Val, p: DocumentParser)
    ensures AsBasic(FromParser(requestItem, p), BasicFormatKeys).Keys == {"request_error", "path_data", "used_cache"}
    ensures AsBasic(FromParser(requestItem, p), BasicFormatKeys)["path_data"] == p.pathData
  {
    var env := FromParser(requestItem, p);
    var b := AsBasic(env, BasicFormatKeys);
    assert "request_error" in b && "path_data" in b && "used_cache" in b;
    forall k | k in b
      ensures k == "request_error" || k == "path_data" || k == "used_cache"
    {
      assert k in BasicFormatKeys;
    }
  }

  // ---------------------------------------------------------------------------
  // Return styles

  /** What a route hands back: a JSON object, or a raw HTML body. */
  datatype Response = Json(fields: map<string, Val>) | Html(content: Val)

  /** The return-style dispatch at the end of both routes. */
  function Shape(env: map<string, Val>, style: ReturnStyle): (r: Response)
    requires "path_data" in env
    ensures style == BASIC ==> r == Json(AsBasic(env, BasicFormatKeys))
    ensures style == DATA_ONLY ==> r == Html(env["path_data"])
    ensures style == VERBOSE ==> r == Json(env)
    ensures r.Html? <==> style == DATA_ONLY
    ensures r.Html? ==> r.content == env["path_data"]
    ensures r.Json? ==> r.fields.Keys <= env.Keys && forall k :: k in r.fields ==> r.fields[k] == env[k]
    ensures style == BASIC ==> forall k :: k in r.fields ==> k in BasicFormatKeys
  {
    match style
    case BASIC => Json(AsBasic(env, BasicFormatKeys))
    case DATA_ONLY => Html(env["path_data"])
    case VERBOSE => Json(env)
  }

  /** A BASIC response is a part of the VERBOSE response for the same envelope:
      fewer fields, the same values. */
  lemma BasicWithinVerbose(env: map<string, Val>)
    requires "path_data" in env
    ensures Shape(env, BASIC).fields.Keys <= Shape(env, VERBOSE).fields.Keys
    ensures forall k :: k in Shape(env, BASIC).fields ==> Shape(env, BASIC).fields[k] == env[k]
  {
  }

  /** The text an HTML response renders: `None` renders as an empty body;
      content that is neither text nor `None` cannot be rendered. */
  function HtmlText(content: Val): (r: Option<string>)
    ensures content.Str? ==> r == Some(content.s)
    ensures content.Null? ==> r == Some("")
    ensures !content.Str? && !content.Null? ==> r.None?
  {
    match content
    case Str(s) => Some(s)
    case Null => Some("")
    case _ => None
  }
}
