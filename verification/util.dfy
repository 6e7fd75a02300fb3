/** The shared parser machinery: path types, URL sanitising, the status-code
    table, the reformatting step of `run`, and the older
    `ParselSelectorRetriever._get_path_data` kept as written. */
module Util {
  import opened Wrappers
  import opened Values
  import opened Text
  import opened Foreign
  import opened Extraction

  /** The selector languages a path can be written in. */
  datatype PathType = XPATH | CSS | REGEX | JSON | XML

  /** The string value of each path type constant. */
  function PathTypeName(t: PathType): string {
    match t
    case XPATH => "XPATH"
    case CSS => "CSS"
    case REGEX => "REGEX"
    case JSON => "JSON"
    case XML => "XML"
  }

  /** Reads a path type back from its string value; anything else is not one. */
  function ParsePathType(s: string): (r: Option<PathType>)
    ensures r.Some? ==> PathTypeName(r.value) == s
  {
    if s == "XPATH" then Some(XPATH)
    else if s == "CSS" then Some(CSS)
    else if s == "REGEX" then Some(REGEX)
    else if s == "JSON" then Some(JSON)
    else if s == "XML" then Some(XML)
    else None
  }

  /** Every path type survives the trip through its string value. */
  lemma PathTypeNameRoundTrip(t: PathType)
    ensures ParsePathType(PathTypeName(t)) == Some(t)
  {
  }

  // ---------------------------------------------------------------------------
  // URL sanitising

  /** The URL starts with the four letters "http" in any mix of cases. */
  predicate HasHttpScheme(u: string) {
    && |u| >= 4
    && (u[0] == 'h' || u[0] == 'H')
    && (u[1] == 't' || u[1] == 'T')
    && (u[2] == 't' || u[2] == 'T')
    && (u[3] == 'p' || u[3] == 'P')
  }

  /** The parser's `url` property: `url[:4].lower() == "http"` keeps the URL,
      anything else is prefixed with "http://". */
  function NormalizeUrl(u: string): (r: string)
    ensures HasHttpScheme(u) ==> r == u
    ensures !HasHttpScheme(u) ==> r == "http://" + u
    ensures HasHttpScheme(r)
  {
    var head := Lower(PrefixUpTo(u, 4));
    if head == "http" then u else "http://" + u
  }

  /** A URL shorter than four characters can never pass the test. */
  lemma ShortUrlGetsPrefix(u: string)
    requires |u| < 4
    ensures NormalizeUrl(u) == "http://" + u
  {
  }

  /** Sanitising an already sanitised URL is a no-op. */
  lemma NormalizeUrlIdempotent(u: string)
    ensures NormalizeUrl(NormalizeUrl(u)) == NormalizeUrl(u)
  {
  }

  // ---------------------------------------------------------------------------
  // Status codes

  /** `http_response_codes`: status code to (short reason, long description). */
  const HttpResponseCodes: map<int, (string, string)> := map[
    100 := ("Continue", "Request received, please continue"),
    101 := ("Switching Protocols", "Switching to new protocol; obey Upgrade header"),
    200 := ("OK", "Request fulfilled, document follows"),
    201 := ("Created", "Document created, URL follows"),
    202 := ("Accepted", "Request accepted, processing continues off-line"),
    203 := ("Non-Authoritative Information", "Request fulfilled from cache"),
    204 := ("No Content", "Request fulfilled, nothing follows"),
    205 := ("Reset Content", "Clear input form for further input."),
    206 := ("Partial Content", "Partial content follows."),
    300 := ("Multiple Choices", "Object has several resources -- see URI list"),
    301 := ("Moved Permanently", "Object moved permanently -- see URI list"),
    302 := ("Found", "Object moved temporarily -- see URI list"),
    303 := ("See Other", "Object moved -- see Method and URL list"),
    304 := ("Not Modified", "Document has not changed since given time"),
    305 := ("Use Proxy", "You must use proxy specified in Location to access this resource."),
    307 := ("Temporary Redirect", "Object moved temporarily -- see URI list"),
    400 := ("Bad Request", "Bad request syntax or unsupported method"),
    401 := ("Unauthorized", "No permission -- see authorization schemes"),
    402 := ("Payment Required", "No payment -- see charging schemes"),
    403 := ("Forbidden", "Request forbidden -- authorization will not help"),
    404 := ("Not Found", "Nothing matches the given URI"),
    405 := ("Method Not Allowed", "Specified method is invalid for this server."),
    406 := ("Not Acceptable", "URI not available in preferred format."),
    407 := ("Proxy Authentication Required", "You must authenticate with this proxy before proceeding."),
    408 := ("Request Timeout", "Request timed out; try again later."),
    409 := ("Conflict", "Request conflict."),
    410 := ("Gone", "URI no longer exists and has been permanently removed."),
    411 := ("Length Required", "Client must specify Content-Length."),
    412 := ("Precondition Failed", "Precondition in headers is false."),
    413 := ("Request Entity Too Large", "Entity is too large."),
    414 := ("Request-URI Too Long", "URI is too long."),
    415 := ("Unsupported Media Type", "Entity body in unsupported format."),
    416 := ("Requested Range Not Satisfiable", "Cannot satisfy request range."),
    417 := ("Expectation Failed", "Expect condition could not be satisfied."),
    500 := ("Internal Server Error", "Server got itself in trouble"),
    501 := ("Not Implemented", "Server does not support this operation"),
    502 := ("Bad Gateway", "Invalid responses from another server/proxy."),
    503 := ("Service Unavailable", "The server cannot process the request due to a high load"),
    504 := ("Gateway Timeout", "The gateway server did not receive a timely response"),
    505 := ("HTTP Version Not Supported", "Cannot fulfill request.")
  ]

  /** The status codes that section 6.1.1 of RFC 2616 defines for HTTP/1.1
      (306 is reserved there and has no phrase). */
  predicate IsRfc2616StatusCode(code: int) {
    || code == 100 || code == 101
    || (200 <= code <= 206)
    || (300 <= code <= 305) || code == 307
    || (400 <= code <= 417)
    || (500 <= code <= 505)
  }

  /** The parser's `status_msg` property: `http_response_codes.get(code)`. */
  function StatusMsg(code: int): (r: Option<(string, string)>)
    ensures r.Some? <==> IsRfc2616StatusCode(code)
    ensures r.Some? ==> code in HttpResponseCodes && r.value == HttpResponseCodes[code]
  {
    if code in HttpResponseCodes then Some(HttpResponseCodes[code]) else None
  }

  /** A few entries of the table, and codes it does not hold. */
  lemma StatusMsgExamples()
    ensures StatusMsg(200) == Some(("OK", "Request fulfilled, document follows"))
    ensures StatusMsg(404) == Some(("Not Found", "Nothing matches the given URI"))
    ensures StatusMsg(306) == None
    ensures StatusMsg(418) == None
    ensures StatusMsg(0) == None
  {
  }

  // ---------------------------------------------------------------------------
  // The parser after `run`

  /** A cached request. Its timestamps and durations are abstract numbers. */
  datatype CacheItem = CacheItem(createdDatetime: int, age: int, timeRemaining: int, retrievedCount: int)

  /** What the single outbound GET produced: the status code and the body,
      already decoded as UTF-8. */
  datatype Fetched = Fetched(statusCode: int, body: string)

  /** The path types whose data `run` re-serialises as JSON text. */
  predicate IsReformatted(t: PathType) {
    t == JSON || t == XML || t == REGEX
  }

  /** A document parser once `run` has finished. */
  datatype DocumentParser = DocumentParser(
    statusCode: int,
    rawData: string,
    errors: ErrorFields,
    pathData: Val,
    rawPathData: Val,
    contentReformatted: bool,
    cachedItem: Option<CacheItem>)

  /** `run`, after the GET: the extracted data becomes `path_data` and
      `raw_path_data`, then `path_data` alone is replaced by its JSON text
      for JSON, XML and REGEX paths. */
  function Run(t: PathType, fetched: Fetched, extracted: PathDataResult, lib: Libraries,
               cachedItem: Option<CacheItem>): (p: DocumentParser)
    ensures p.statusCode == fetched.statusCode && p.rawData == fetched.body
    ensures p.errors == extracted.errors && p.cachedItem == cachedItem
    ensures p.rawPathData == extracted.data
    ensures p.contentReformatted <==> IsReformatted(t)
    ensures IsReformatted(t) ==> p.pathData == Str(lib.jsonDumps(p.rawPathData))
    ensures !IsReformatted(t) ==> p.pathData == p.rawPathData
  {
    var reformatted := IsReformatted(t);
    var data := if reformatted then Str(lib.jsonDumps(extracted.data)) else extracted.data;
    DocumentParser(fetched.statusCode, fetched.body, extracted.errors, data,
                   extracted.data, reformatted, cachedItem)
  }

  // ---------------------------------------------------------------------------
  // ParselSelectorRetriever._get_path_data, as written

  /** The retriever's class defaults for `error_code` and `error_msg`. */
  const RetrieverDefaults: ErrorFields := ErrorFields(None, None)

  /** Python's text for reading an attribute the retriever never defines. */
  function MissingAttribute(name: string): string {
    "'ParselSelectorRetriever' object has no attribute '" + name + "'"
  }

  /** How the retriever's `_get_path_data` ends: it returns, or an exception
      escapes it (and `run`) after the error attributes were changed. */
  datatype SnapshotResult =
    | Returned(errors: ErrorFields, data: Val)
    | Raised(errors: ErrorFields, exception: string)

  /** The retriever's handlers. The `KeyError` handler sets code 1 and then
      fails itself while formatting its message, because `path_type_name`
      does not exist; that failure escapes. */
  function SnapshotClassify(prior: ErrorFields, body: PyCall<Val>): (r: SnapshotResult)
    ensures body.Value? ==> r == Returned(prior, body.value)
    ensures body.KeyErr? ==> r == Raised(ErrorFields(Some(1), prior.msg), MissingAttribute("path_type_name"))
    ensures body.OtherErr? ==> r == Returned(ErrorFields(Some(2), Some(ComboErrorMsg(body.text))), Null)
  {
    match body
    case Value(v) => Returned(prior, v)
    case KeyErr => Raised(ErrorFields(Some(1), prior.msg), MissingAttribute("path_type_name"))
    case OtherErr(text) => Returned(ErrorFields(Some(2), Some(ComboErrorMsg(text))), Null)
  }

  /** The parsel query for a path type, on a selector that exists: XPATH
      and CSS keep the first match only, REGEX keeps every match as a list.
      The JSON and XML paths make no selector query. */
  function SelectorQuery(t: PathType, sel: Selector, path: string, lib: Libraries): PyCall<Val>
  {
    match t
    case XPATH => lib.xpath(sel, path).Apply(First)
    case CSS => lib.css(sel, path).Apply(First)
    case REGEX => lib.re(sel, path).Apply(ms => List(Strs(ms)))
    case _ => Value(Null)
  }

  /** `ParselSelectorRetriever._get_path_data`: a selector is built for
      every path type; XML fails inside its own `try` by reading
      `full_response`, so it always reports a parse error. */
  function SnapshotGetPathData(prior: ErrorFields, t: PathType, path: string, raw: string,
                               lib: Libraries): (r: SnapshotResult)
    ensures r.Raised? ==> r.errors.code == Some(1) && r.errors.msg == prior.msg
    ensures r.Returned? && r.errors != prior ==> r.data == Null
  {
    match lib.newSelector(raw)
    case Value(sel) =>
      if t == XML then Returned(XmlParseFailure, Null)
      else if t == JSON then SnapshotClassify(prior, OtherErr(MissingAttribute("full_response")))
      else SnapshotClassify(prior, SelectorQuery(t, sel, path, lib))
    case KeyErr => SnapshotClassify(prior, KeyErr)
    case OtherErr(text) => SnapshotClassify(prior, OtherErr(text))
  }

  /** As written, a JSON path fails with code 2 on every document, however
      well-formed, and whatever `json.loads` and `dpath` would have done. */
  lemma SnapshotJsonAlwaysFails(prior: ErrorFields, path: string, raw: string, lib: Libraries)
    requires lib.newSelector(raw).Value?
    ensures SnapshotGetPathData(prior, JSON, path, raw, lib)
         == Returned(ErrorFields(Some(2), Some(ComboErrorMsg(MissingAttribute("full_response")))), Null)
  {
  }

  /** As written, an XML path reports "not valid XML" on every document. */
  lemma SnapshotXmlAlwaysFails(prior: ErrorFields, path: string, raw: string, lib: Libraries)
    requires lib.newSelector(raw).Value?
    ensures SnapshotGetPathData(prior, XML, path, raw, lib) == Returned(XmlParseFailure, Null)
  {
  }

  /** As written, the document libraries are never consulted: swapping
      `json.loads`, `xmltodict.parse` and `dpath` for anything else changes nothing. */
  lemma SnapshotIgnoresDocumentLibraries(prior: ErrorFields, t: PathType, path: string, raw: string,
                                         lib: Libraries, loads: string -> PyCall<Val>,
                                         parse: string -> PyCall<Val>,
                                         get: (Val, string) -> PyCall<Val>)
    ensures SnapshotGetPathData(prior, t, path, raw, lib.(jsonLoads := loads, xmlParse := parse, dpathGet := get))
         == SnapshotGetPathData(prior, t, path, raw, lib)
  {
  }

  /** As written, a `KeyError` from the selector escapes as an
      `AttributeError`, with code 1 set and the message left as it was. */
  lemma SnapshotKeyErrorEscapes(prior: ErrorFields, t: PathType, path: string, raw: string, lib: Libraries)
    requires lib.newSelector(raw).Value?
    requires t == XPATH && lib.xpath(lib.newSelector(raw).value, path).KeyErr?
    ensures SnapshotGetPathData(prior, t, path, raw, lib)
         == Raised(ErrorFields(Some(1), prior.msg), MissingAttribute("path_type_name"))
  {
  }

  /** No success branch assigns the error attributes: after a selector query
      that succeeds they still hold the class defaults. */
  lemma SnapshotSuccessKeepsDefaults(t: PathType, path: string, raw: string, lib: Libraries)
    requires t == XPATH || t == CSS || t == REGEX
    requires lib.newSelector(raw).Value?
    requires SelectorQuery(t, lib.newSelector(raw).value, path, lib).Value?
    ensures SnapshotGetPathData(RetrieverDefaults, t, path, raw, lib)
         == Returned(RetrieverDefaults, SelectorQuery(t, lib.newSelector(raw).value, path, lib).value)
  {
  }
}
