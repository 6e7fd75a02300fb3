/** The `/dpath` route: JSON and XML documents, looked up with slash paths. */
module Dpath {
  import opened Wrappers
  import opened Values
  import opened Text
  import opened Foreign
  import opened Extraction
  import opened Util
  import opened Dependencies

  /** `DpathPathTypes`: the only path types this route accepts. */
  type DpathPathType = t: PathType | t == JSON || t == XML witness JSON

  /** The query parameter's coercion to a `DpathPathTypes` member. */
  function ParseDpathPathType(s: string): (r: Option<DpathPathType>)
    ensures r.Some? <==> s == "JSON" || s == "XML"
    ensures r.Some? ==> PathTypeName(r.value) == s
  {
    match ParsePathType(s)
    case Some(t) => if t == JSON || t == XML then Some(t) else None
    case None => None
  }

  /** `DpathRequest`, once its fields are filled in. */
  datatype DpathRequest = DpathRequest(
    url: string, path: string, pathType: DpathPathType, userAgent: string, returnStyle: ReturnStyle)

  /** A `DpathRequest` from the query: a parameter left out takes the class
      default, JSON for the path type and BASIC for the return style. */
  function NewDpathRequest(url: string, path: string, pathType: Option<DpathPathType>,
                           userAgent: Option<string>, returnStyle: Option<ReturnStyle>,
                           defaultUserAgent: string): (r: DpathRequest)
    ensures r.url == url && r.path == path
    ensures pathType.None? ==> r.pathType == JSON
    ensures pathType.Some? ==> r.pathType == pathType.value
    ensures userAgent.None? ==> r.userAgent == defaultUserAgent
    ensures userAgent.Some? ==> r.userAgent == userAgent.value
    ensures returnStyle.None? ==> r.returnStyle == BASIC
    ensures returnStyle.Some? ==> r.returnStyle == returnStyle.value
  {
    DpathRequest(
      url, path,
      match pathType case Some(t) => t case None => JSON,
      match userAgent case Some(u) => u case None => defaultUserAgent,
      match returnStyle case Some(s) => s case None => BASIC)
  }

  /** The request echoed back as `request_item`. */
  function RequestItem(req: DpathRequest): Val {
    RequestItemVal(req.url, req.path, req.pathType, req.userAgent, req.returnStyle)
  }

  /** The part of the `try` body that can raise into the handlers: for JSON,
      `json.loads` and then `dpath.util.get`; for a parsed XML document, the
      `dpath.util.get` alone. */
  function Lookup(t: PathType, path: string, raw: string, lib: Libraries): PyCall<Val> {
    if t == JSON then lib.jsonLoads(raw).Then(doc => lib.dpathGet(doc, path))
    else if t == XML && lib.xmlParse(raw).Value? then lib.dpathGet(lib.xmlParse(raw).value, path)
    else Value(Null)
  }

  /** `DpathDocumentParser._get_path_data`. */
  function GetPathData(prior: ErrorFields, t: PathType, path: string, raw: string, lib: Libraries): (e: PathDataResult)
    ensures e.errors == prior || e.errors.code == Some(1) || e.errors.code == Some(2) || e.errors.code == Some(3)
    ensures e.errors != prior ==> e.data == Null
    ensures t == XML && !lib.xmlParse(raw).Value? ==> e == PathDataResult(XmlParseFailure, Null)
    ensures t != JSON && t != XML ==> e == PathDataResult(prior, Null)
    ensures e.data.Str? ==> Strip(e.data.s) == e.data.s
  {
    if t == XML && !lib.xmlParse(raw).Value? then
      PathDataResult(XmlParseFailure, Null)
    else
      var c := Classify(prior, PathTypeName(t), Lookup(t, path, raw, lib));
      TrimIfStringIdempotent(c.data);
      Finish(c)
  }

  /** A value the lookup finds comes back, trimmed if it is a string, and
      no error is assigned. */
  lemma LookupFound(prior: ErrorFields, t: DpathPathType, path: string, raw: string, lib: Libraries, v: Val)
    requires t == XML ==> lib.xmlParse(raw).Value?
    requires Lookup(t, path, raw, lib) == Value(v)
    ensures GetPathData(prior, t, path, raw, lib) == PathDataResult(prior, TrimIfString(v))
  {
  }

  /** A `KeyError` from `json.loads` or `dpath.util.get` is code 1, with a
      message naming the path type. */
  lemma LookupKeyError(prior: ErrorFields, t: DpathPathType, path: string, raw: string, lib: Libraries)
    requires t == XML ==> lib.xmlParse(raw).Value?
    requires Lookup(t, path, raw, lib).KeyErr?
    ensures GetPathData(prior, t, path, raw, lib)
         == PathDataResult(ErrorFields(Some(1), Some(PathErrorMsg(PathTypeName(t)))), Null)
  {
  }

  /** Any other exception, a JSON decoding error among them, is code 2 and
      its message ends with the exception's text. */
  lemma LookupOtherError(prior: ErrorFields, t: DpathPathType, path: string, raw: string, lib: Libraries)
    requires t == XML ==> lib.xmlParse(raw).Value?
    requires Lookup(t, path, raw, lib).OtherErr?
    ensures GetPathData(prior, t, path, raw, lib).errors.code == Some(2)
    ensures EndsWith(GetPathData(prior, t, path, raw, lib).errors.msg.value, Lookup(t, path, raw, lib).text)
    ensures GetPathData(prior, t, path, raw, lib).data == Null
  {
  }

  /** An XML document that does not parse is reported before any lookup:
      `dpath.util.get` plays no part in the result. */
  lemma XmlFailureSkipsLookup(prior: ErrorFields, path: string, raw: string, lib: Libraries,
                              get: (Val, string) -> PyCall<Val>)
    requires !lib.xmlParse(raw).Value?
    ensures GetPathData(prior, XML, path, raw, lib.(dpathGet := get)) == GetPathData(prior, XML, path, raw, lib)
  {
  }

  /** The parser after `run`, the GET already done. */
  function Parse(req: DpathRequest, fetched: Fetched, lib: Libraries, defaults: ErrorFields,
                 cachedItem: Option<CacheItem>): DocumentParser
  {
    Run(req.pathType, fetched, GetPathData(defaults, req.pathType, req.path, fetched.body, lib), lib, cachedItem)
  }

  /** The full `DpathResponse` envelope. */
  function Envelope(req: DpathRequest, fetched: Fetched, lib: Libraries, defaults: ErrorFields,
                    cachedItem: Option<CacheItem>): (env: map<string, Val>)
    ensures env.Keys == ResponseFields
    ensures env["path_data"] == Str(lib.jsonDumps(Parse(req, fetched, lib, defaults, cachedItem).rawPathData))
  {
    FromParser(RequestItem(req), Parse(req, fetched, lib, defaults, cachedItem))
  }

  /** `parse_data_with_dpath_paths`, from the parsed request and the fetch
      outcome to the response. */
  function ParseDataWithDpathPaths(req: DpathRequest, fetched: Fetched, lib: Libraries,
                                   defaults: ErrorFields, cachedItem: Option<CacheItem>): (r: Response)
    ensures r.Json? <==> req.returnStyle != DATA_ONLY
    ensures req.returnStyle == BASIC ==> r.fields.Keys == {"request_error", "path_data", "used_cache"}
    ensures req.returnStyle == DATA_ONLY ==> r.content.Str?
    ensures req.returnStyle == VERBOSE ==> r.fields.Keys == ResponseFields
  {
    var env := Envelope(req, fetched, lib, defaults, cachedItem);
    BasicOfEnvelope(RequestItem(req), Parse(req, fetched, lib, defaults, cachedItem));
    Shape(env, req.returnStyle)
  }

  /** A DATA_ONLY body is the VERBOSE envelope's `path_data` as text, and
      that text is always present on this route. */
  lemma DataOnlyIsVerbosePathData(req: DpathRequest, fetched: Fetched, lib: Libraries,
                                  defaults: ErrorFields, cachedItem: Option<CacheItem>)
    requires req.returnStyle == DATA_ONLY
    ensures HtmlText(ParseDataWithDpathPaths(req, fetched, lib, defaults, cachedItem).content)
         == HtmlText(ParseDataWithDpathPaths(req.(returnStyle := VERBOSE), fetched, lib, defaults, cachedItem).fields["path_data"])
    ensures HtmlText(ParseDataWithDpathPaths(req, fetched, lib, defaults, cachedItem).content).Some?
  {
  }

  /** A document that is not XML gives a VERBOSE envelope with parser error 3
      and `path_data` holding the JSON text of `None`. */
  lemma XmlFailureEnvelope(req: DpathRequest, fetched: Fetched, lib: Libraries,
                           defaults: ErrorFields, cachedItem: Option<CacheItem>)
    requires req.pathType == XML && !lib.xmlParse(fetched.body).Value?
    ensures DecodeParserError(Envelope(req, fetched, lib, defaults, cachedItem)["parser_error"]) == Some(XmlParseFailure)
    ensures Envelope(req, fetched, lib, defaults, cachedItem)["path_data"] == Str(lib.jsonDumps(Null))
  {
  }

  /** On success the envelope's parser error is whatever the parser held
      before `_get_path_data` ran. */
  lemma SuccessKeepsDefaults(req: DpathRequest, fetched: Fetched, lib: Libraries,
                             defaults: ErrorFields, cachedItem: Option<CacheItem>, v: Val)
    requires req.pathType == XML ==> lib.xmlParse(fetched.body).Value?
    requires Lookup(req.pathType, req.path, fetched.body, lib) == Value(v)
    ensures DecodeParserError(Envelope(req, fetched, lib, defaults, cachedItem)["parser_error"]) == Some(defaults)
  {
    LookupFound(defaults, req.pathType, req.path, fetched.body, lib, v);
  }
}
