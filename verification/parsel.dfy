/** The `/parsel` route: XPath, CSS and regular-expression selectors over
    HTML/XML documents. */
module Parsel {
  import opened Wrappers
  import opened Values
  import opened Text
  import opened Foreign
  import opened Extraction
  import opened Util
  import opened Dependencies

  /** `ParselPathTypes`: the only path types this route accepts. */
  type ParselPathType = t: PathType | t == XPATH || t == CSS || t == REGEX witness XPATH

  /** The query parameter's coercion to a `ParselPathTypes` member. */
  function ParseParselPathType(s: string): (r: Option<ParselPathType>)
    ensures r.Some? <==> s == "XPATH" || s == "CSS" || s == "REGEX"
    ensures r.Some? ==> PathTypeName(r.value) == s
  {
    match ParsePathType(s)
    case Some(t) => if t == XPATH || t == CSS || t == REGEX then Some(t) else None
    case None => None
  }

  /** `ParselRequest`, once its fields are filled in. */
  datatype ParselRequest = ParselRequest(
    url: string, path: string, pathType: ParselPathType, userAgent: string, returnStyle: ReturnStyle)

  /** A `ParselRequest` from the query: a parameter left out takes the class
      default, XPATH for the path type and BASIC for the return style. */
  function NewParselRequest(url: string, path: string, pathType: Option<ParselPathType>,
                            userAgent: Option<string>, returnStyle: Option<ReturnStyle>,
                            defaultUserAgent: string): (r: ParselRequest)
    ensures r.url == url && r.path == path
    ensures pathType.None? ==> r.pathType == XPATH
    ensures pathType.Some? ==> r.pathType == pathType.value
    ensures userAgent.None? ==> r.userAgent == defaultUserAgent
    ensures userAgent.Some? ==> r.userAgent == userAgent.value
    ensures returnStyle.None? ==> r.returnStyle == BASIC
    ensures returnStyle.Some? ==> r.returnStyle == returnStyle.value
  {
    ParselRequest(
      url, path,
      match pathType case Some(t) => t case None => XPATH,
      match userAgent case Some(u) => u case None => defaultUserAgent,
      match returnStyle case Some(s) => s case None => BASIC)
  }

  /** The request echoed back as `request_item`. */
  function RequestItem(req: ParselRequest): Val {
    RequestItemVal(req.url, req.path, req.pathType, req.userAgent, req.returnStyle)
  }

  /** The `try` body: build the selector, then run the query. */
  function Select(t: PathType, path: string, raw: string, lib: Libraries): PyCall<Val> {
    lib.newSelector(raw).Then(sel => SelectorQuery(t, sel, path, lib))
  }

  /** `ParselDocumentParser._get_path_data`. Only codes 1 and 2 can be
      assigned here; there is no parse error of its own. */
  function GetPathData(prior: ErrorFields, t: PathType, path: string, raw: string, lib: Libraries): (e: PathDataResult)
    ensures e.errors == prior || e.errors.code == Some(1) || e.errors.code == Some(2)
    ensures e.errors != prior ==> e.data == Null
    ensures (t == XPATH || t == CSS) ==> e.data.Str? || e.data.Null?
    ensures e.data.Str? ==> Strip(e.data.s) == e.data.s
  {
    var c := Classify(prior, PathTypeName(t), Select(t, path, raw, lib));
    TrimIfStringIdempotent(c.data);
    Finish(c)
  }

  /** XPATH and CSS keep the first match, trimmed, or `None` when nothing
      matched. */
  lemma FirstMatchOnly(prior: ErrorFields, t: ParselPathType, path: string, raw: string, lib: Libraries,
                       matches: seq<string>)
    requires t == XPATH || t == CSS
    requires lib.newSelector(raw).Value?
    requires t == XPATH ==> lib.xpath(lib.newSelector(raw).value, path) == Value(matches)
    requires t == CSS ==> lib.css(lib.newSelector(raw).value, path) == Value(matches)
    ensures matches == [] ==> GetPathData(prior, t, path, raw, lib) == PathDataResult(prior, Null)
    ensures matches != [] ==> GetPathData(prior, t, path, raw, lib) == PathDataResult(prior, Str(Strip(matches[0])))
  {
    assert Select(t, path, raw, lib) == Value(First(matches));
  }

  /** REGEX keeps every match, in order, and leaves each one untrimmed. */
  lemma RegexKeepsAllMatches(prior: ErrorFields, path: string, raw: string, lib: Libraries,
                             matches: seq<string>)
    requires lib.newSelector(raw).Value?
    requires lib.re(lib.newSelector(raw).value, path) == Value(matches)
    ensures GetPathData(prior, REGEX, path, raw, lib) == PathDataResult(prior, List(Strs(matches)))
  {
  }

  /** A `KeyError` from building the selector or running the query is
      code 1, with a message naming the path type. */
  lemma SelectKeyError(prior: ErrorFields, t: ParselPathType, path: string, raw: string, lib: Libraries)
    requires Select(t, path, raw, lib).KeyErr?
    ensures GetPathData(prior, t, path, raw, lib)
         == PathDataResult(ErrorFields(Some(1), Some(PathErrorMsg(PathTypeName(t)))), Null)
  {
  }

  /** Any other exception is code 2, embedding the exception's text. */
  lemma SelectOtherError(prior: ErrorFields, t: ParselPathType, path: string, raw: string, lib: Libraries)
    requires Select(t, path, raw, lib).OtherErr?
    ensures GetPathData(prior, t, path, raw, lib)
         == PathDataResult(ErrorFields(Some(2), Some(ComboErrorMsg(Select(t, path, raw, lib).text))), Null)
  {
  }

  /** The parser after `run`, the GET already done. */
  function Parse(req: ParselRequest, fetched: Fetched, lib: Libraries, defaults: ErrorFields,
                 cachedItem: Option<CacheItem>): DocumentParser
  {
    Run(req.pathType, fetched, GetPathData(defaults, req.pathType, req.path, fetched.body, lib), lib, cachedItem)
  }

  /** The full `ParselResponse` envelope. Its `path_data` is text or `None`:
      a first match or nothing for XPATH and CSS, JSON text for REGEX. */
  function Envelope(req: ParselRequest, fetched: Fetched, lib: Libraries, defaults: ErrorFields,
                    cachedItem: Option<CacheItem>): (env: map<string, Val>)
    ensures env.Keys == ResponseFields
    ensures env["path_data"].Str? || env["path_data"].Null?
    ensures req.pathType == REGEX ==> env["path_data"] == Str(lib.jsonDumps(Parse(req, fetched, lib, defaults, cachedItem).rawPathData))
    ensures req.pathType != REGEX ==> env["path_data"] == Parse(req, fetched, lib, defaults, cachedItem).rawPathData
  {
    FromParser(RequestItem(req), Parse(req, fetched, lib, defaults, cachedItem))
  }

  /** `parse_data_with_parsel_selectors`, from the parsed request and the
      fetch outcome to the response. */
  function ParseDataWithParselSelectors(req: ParselRequest, fetched: Fetched, lib: Libraries,
                                        defaults: ErrorFields, cachedItem: Option<CacheItem>): (r: Response)
    ensures r.Json? <==> req.returnStyle != DATA_ONLY
    ensures req.returnStyle == BASIC ==> r.fields.Keys == {"request_error", "path_data", "used_cache"}
    ensures req.returnStyle == DATA_ONLY ==> r.content.Str? || r.content.Null?
    ensures req.returnStyle == VERBOSE ==> r.fields.Keys == ResponseFields
  {
    var env := Envelope(req, fetched, lib, defaults, cachedItem);
    BasicOfEnvelope(RequestItem(req), Parse(req, fetched, lib, defaults, cachedItem));
    Shape(env, req.returnStyle)
  }

  /** A DATA_ONLY body is the VERBOSE envelope's `path_data` as text, and it
      always renders: `None` as an empty body. */
  lemma DataOnlyIsVerbosePathData(req: ParselRequest, fetched: Fetched, lib: Libraries,
                                  defaults: ErrorFields, cachedItem: Option<CacheItem>)
    requires req.returnStyle == DATA_ONLY
    ensures HtmlText(ParseDataWithParselSelectors(req, fetched, lib, defaults, cachedItem).content)
         == HtmlText(ParseDataWithParselSelectors(req.(returnStyle := VERBOSE), fetched, lib, defaults, cachedItem).fields["path_data"])
    ensures HtmlText(ParseDataWithParselSelectors(req, fetched, lib, defaults, cachedItem).content).Some?
  {
  }

  /** The subject line of the example note. */
  const Subject: string := "You scraped me \U{1F915}"

  /** On the example HTML note, the text of the third span is the subject
      after a space; the route trims that space away. */
  lemma ExampleSubjectIsTrimmed(prior: ErrorFields, raw: string, lib: Libraries)
    requires lib.newSelector(raw).Value?
    requires lib.xpath(lib.newSelector(raw).value, "/html/body/div/span[3]/text()") == Value([" " + Subject])
    ensures GetPathData(prior, XPATH, "/html/body/div/span[3]/text()", raw, lib) == PathDataResult(prior, Str(Subject))
  {
    var spaced := " " + Subject;
    assert StrippedAt(spaced, Subject, 1) by {
      assert spaced[1..1 + |Subject|] == Subject;
    }
    StripUnique(spaced, Subject);
    FirstMatchOnly(prior, XPATH, "/html/body/div/span[3]/text()", raw, lib, [spaced]);
  }
}
