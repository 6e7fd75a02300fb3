# Parsel Selector API — a Dafny model of its request and response logic

The service fetches one document over HTTP and pulls one value out of it with
a selector: XPath, CSS or a regular expression on the `/parsel` route (via
parsel), a slash path over JSON or XML on the `/dpath` route (via `json`,
`xmltodict` and `dpath`). The selecting itself is done by those libraries.
This project models the logic around them:

- **Request normalisation.** The URL gets an `http://` prefix unless it
  already starts with "http" in any case. A status code is looked up in the
  fixed table of HTTP/1.1 reason phrases.
- **Extraction outcome classification.** What the library calls did becomes
  the parser's `error_code` / `error_msg` and the returned data:
  - 3 when the XML does not parse;
  - 1 for a `KeyError`;
  - 2 for any other exception, with its text;
  - nothing assigned on success.

  String results are then trimmed. For JSON, XML and REGEX, `run` re-serialises
  the data as JSON text.
- **Envelope assembly and shaping.**
  - `from_parser` fills the response envelope.
  - `as_basic` (a copy) and `make_basic` (in place) project it onto the
    allow-list.
  - The routers hand back a BASIC projection, the bare `path_data`, or the
    whole envelope.

The libraries appear as uninterpreted functions (`Foreign.Libraries`): one
function-valued field per call the service makes, each returning an
`PyCall` (`Value`, `KeyErr` or `OtherErr(text)`). Every contract holds
whatever the libraries do. The envelope is a `map<string, Val>` over a small
JSON-like value type.

Modules: `Wrappers` (Option, PyCall), `Values` (Val), `Text` (Python's
`str.strip()` and ASCII lower-casing), `Foreign`, `Extraction` (the shared
classification rules), `Util` (app/util.py), `Dependencies`
(app/dependencies.py), `Dpath` and `Parsel` (the two routers).

Points where the code's behaviour is easy to misread:
- Success assigns no error code. The route examples show `"parser_error": {"0": "Success"}`
  (app/routers/dpath.py:98, app/routers/parsel.py:87); those values would have
  to come from the base class defaults, which are not part of this model.
- CSS results are trimmed like XPATH ones: the final `return` of
  `_get_path_data` strips every top-level string (app/routers/parsel.py:74).
- `used_cache` defaults to false as a field (app/dependencies.py:85), but
  `from_parser` sets it from the parser's cached item (app/dependencies.py:104).
- The BASIC allow-list is fixed at `request_error`, `path_data`, `used_cache`
  (app/dependencies.py:9).

`BaseDocumentParser`, the routers' parser base class, is not part of this
model: app/util.py does not define it. Two consequences:
- its class defaults for `error_code`/`error_msg` are a parameter (`defaults`)
  of the route functions;
- its `run` is taken to be the `run` of `ParselSelectorRetriever`
  (app/util.py:103-116).

`default_user_agent` is not part of this model either, so it is a parameter of
the request constructors.

The envelope has one field besides the declared ones: `basic_format_keys`.
pydantic turns an unannotated class attribute with a default into a field,
which is also how `user_agent` becomes a field of the request models. So it is
present in a VERBOSE response and dropped by `as_basic`.

## Model

| member | source | states |
|---|---|---|
| `Util.ParsePathType` | app/util.py:76-80 | reading a path type from a string gives back a constant whose value is that string |
| `Util.PathTypeNameRoundTrip` | app/util.py:76-80 | every path type is recovered from its string value |
| `Util.NormalizeUrl` | app/util.py:125-129 | a URL whose first four characters are "http" in any case is kept unchanged, any other gets "http://" in front; the result always starts with "http" |
| `Util.ShortUrlGetsPrefix` | app/util.py:128 | a URL shorter than four characters always gets the prefix, because its slice cannot equal "http" |
| `Util.NormalizeUrlIdempotent` | app/util.py:128 | normalising a normalised URL changes nothing |
| `Util.StatusMsg` | app/util.py:141-144 | a code has a (short, long) pair exactly when it is one of the status codes of section 6.1.1 of RFC 2616, and the pair is the table's entry |
| `Util.StatusMsgExamples` | app/util.py:9-59 | 200 gives ("OK", "Request fulfilled, document follows") and 404 gives its entry; 306, 418 and 0 give None |
| `Util.Run` | app/util.py:110-116 | `raw_path_data` keeps the extracted value. For JSON, XML and REGEX, `content_reformatted` is set and `path_data` is the JSON text of that value. For XPATH and CSS, `path_data` equals `raw_path_data` and nothing is reformatted |
| `Util.SnapshotClassify` | app/util.py:177-184 | in the older retriever, success keeps the error attributes. A `KeyError` sets code 1 and then escapes as an `AttributeError` with the message untouched. Any other exception gives code 2 with its text |
| `Util.SnapshotGetPathData` | app/util.py:146-185 | an escaping exception leaves code 1 and the old message; any returned error leaves data None |
| `Util.SnapshotJsonAlwaysFails` | app/util.py:157-163 | as written, once the selector exists a JSON path yields code 2 naming the missing `full_response` attribute, on every document |
| `Util.SnapshotXmlAlwaysFails` | app/util.py:164-175 | as written, once the selector exists an XML path yields code 3 with the fixed message and data None, on every document |
| `Util.SnapshotIgnoresDocumentLibraries` | app/util.py:157-176 | as written, `json.loads`, `xmltodict.parse` and `dpath` have no influence on the result |
| `Util.SnapshotKeyErrorEscapes` | app/util.py:177-179 | as written, a `KeyError` from the XPath query escapes `_get_path_data`, with code 1 set and the message unchanged |
| `Util.SnapshotSuccessKeepsDefaults` | app/util.py:87-88 | no success branch assigns an error: a successful query leaves `error_code`/`error_msg` at their class default None |
| `Text.Strip` | app/routers/dpath.py:85 | the result is the slice of the input left after removing the leading and trailing Python whitespace, and it neither starts nor ends with whitespace |
| `Text.StripUnique` | app/routers/dpath.py:85 | any string that meets that description is exactly `Strip`'s result |
| `Text.StripIdempotent` | app/routers/parsel.py:74 | trimming a trimmed string changes nothing |
| `Extraction.Classify` | app/routers/dpath.py:77-84 | success keeps the prior error attributes and returns the value. Any exception gives data None with a code and a message. `KeyError` gives code 1, with a message ending in the quoted path type. Any other exception gives code 2, with a message ending in the exception's text |
| `Extraction.TrimIfString` | app/routers/parsel.py:74 | a string comes back as its stripped form; any other value comes back unchanged |
| `Extraction.TrimIfStringIdempotent` | app/routers/dpath.py:85 | trimming a returned value twice is trimming it once |
| `Extraction.Finish` | app/routers/parsel.py:74 | the final `return` keeps the error attributes. A string comes back as its stripped form, with Python's whitespace removed at both ends. Any other value comes back unchanged, lists included |
| `Foreign.First` | app/routers/parsel.py:60-63 | `.get()` is None exactly when nothing matched, else the first match |
| `Dependencies.ParseReturnStyle` | app/dependencies.py:12-17 | reading a return style from a string gives back the member whose value is that string |
| `Dependencies.ReturnStyleNameRoundTrip` | app/dependencies.py:12-17 | every return style is recovered from its string value |
| `Dependencies.MakeBasic` | app/dependencies.py:19-37 | after the deletions, the argument's keys are exactly its former keys that are in `basic_keys`. Each keeps its value. The result equals the `as_basic` projection |
| `Dependencies.MakeBasicInPlace` | app/dependencies.py:19-37 | the dictionary passed in is itself changed to the projection, and it is the object returned |
| `Dependencies.RequestErrorRoundTrip` | app/dependencies.py:100 | the request error holds the status code and the reason pair (or None) without loss |
| `Dependencies.ParserErrorRoundTrip` | app/dependencies.py:101 | the parser error holds `error_code` and `error_msg`, each possibly None, without loss |
| `Dependencies.CacheInfoFromCachedItem` | app/dependencies.py:70-79 | None exactly when there is no cached item; otherwise the item's four fields, copied one to one |
| `Dependencies.FromParser` | app/dependencies.py:92-106 | the envelope has exactly the response fields. `request_item` is the request. `request_error` decodes to (status code, status message) and `parser_error` to the parser's error attributes. `path_data` and `raw_data` are copied. `used_cache` is true iff there is a cached item, and `cache_info` is None iff there is none |
| `Dependencies.AsBasic` | app/dependencies.py:108-114 | the copy's keys are exactly the envelope's keys that are on the allow-list, each with its original value |
| `Dependencies.AsBasicIdempotent` | app/dependencies.py:108-114 | projecting an already projected envelope changes nothing |
| `Dependencies.BasicOfEnvelope` | app/dependencies.py:82-90 | with the default allow-list, a full envelope projects onto exactly `request_error`, `path_data` and `used_cache`. `request_item`, `parser_error`, `cache_info`, `raw_data` and `basic_format_keys` are dropped |
| `Dependencies.Shape` | app/routers/dpath.py:136-141 | BASIC returns the `as_basic` projection, DATA_ONLY an HTML body of `path_data`, and any other style the whole envelope. A response is HTML exactly for DATA_ONLY. A JSON response is a sub-map of the envelope: no field it lacks, every value the envelope's. A BASIC response has only allow-listed keys |
| `Dependencies.BasicWithinVerbose` | app/dependencies.py:108-114 | a BASIC response has a subset of the VERBOSE response's fields, with the same values |
| `Dependencies.HtmlText` | app/routers/dpath.py:139 | an HTML body renders a string as itself and None as the empty text |
| `Dpath.ParseDpathPathType` | app/routers/dpath.py:24-28 | the route accepts exactly the strings "JSON" and "XML" as path types |
| `Dpath.NewDpathRequest` | app/routers/dpath.py:31-38 | a missing path type defaults to JSON, a missing return style to BASIC and a missing user agent to the default one; given parameters are kept |
| `Dpath.GetPathData` | app/routers/dpath.py:55-85 | only codes 1, 2 and 3 can be assigned, and any assignment comes with data None. A document that does not parse as XML gives code 3 with the fixed message. A path type other than JSON or XML gives data None with nothing assigned. A returned string is already trimmed |
| `Dpath.LookupFound` | app/routers/dpath.py:58-76 | a value found by `json.loads`/`xmltodict.parse` and `dpath.util.get` is returned trimmed if a string, with nothing assigned |
| `Dpath.LookupKeyError` | app/routers/dpath.py:77-79 | a `KeyError` from the parse or the lookup gives code 1, with the message naming the path type, and data None |
| `Dpath.LookupOtherError` | app/routers/dpath.py:80-84 | any other exception, a JSON decoding error included, gives code 2, a message ending with the exception's text, and data None |
| `Dpath.XmlFailureSkipsLookup` | app/routers/dpath.py:66-75 | when the XML does not parse, the result does not depend on `dpath.util.get`: it returns before any lookup |
| `Dpath.Envelope` | app/routers/dpath.py:129-133 | the `DpathResponse` has every response field and its `path_data` is the JSON text of the extracted value |
| `Dpath.ParseDataWithDpathPaths` | app/routers/dpath.py:125-141 | a JSON response unless DATA_ONLY. BASIC has exactly the three allowed fields and VERBOSE all fields. DATA_ONLY carries text |
| `Dpath.DataOnlyIsVerbosePathData` | app/routers/dpath.py:138-139 | a DATA_ONLY body renders to the same text as the VERBOSE envelope's `path_data`, and it always renders |
| `Dpath.XmlFailureEnvelope` | app/routers/dpath.py:66-75 | for a document that is not XML, the envelope's parser error decodes to code 3 with the fixed message, and `path_data` is the JSON text of None |
| `Dpath.SuccessKeepsDefaults` | app/routers/dpath.py:58-65 | after a successful lookup, the envelope's parser error is the parser's default error attributes |
| `Parsel.ParseParselPathType` | app/routers/parsel.py:23-28 | the route accepts exactly "XPATH", "CSS" and "REGEX" as path types |
| `Parsel.NewParselRequest` | app/routers/parsel.py:31-38 | a missing path type defaults to XPATH, a missing return style to BASIC and a missing user agent to the default one; given parameters are kept |
| `Parsel.GetPathData` | app/routers/parsel.py:55-74 | only codes 1 and 2 can be assigned, never 3, and any assignment comes with data None. XPATH and CSS return text or None. A returned string is already trimmed |
| `Parsel.FirstMatchOnly` | app/routers/parsel.py:60-63 | XPATH and CSS return the first match, trimmed, or None when nothing matched, with nothing assigned |
| `Parsel.RegexKeepsAllMatches` | app/routers/parsel.py:64-65 | REGEX returns the whole list of matches in order, each element untrimmed |
| `Parsel.SelectKeyError` | app/routers/parsel.py:66-68 | a `KeyError` from building the selector or the query gives code 1, with the message naming the path type, and data None |
| `Parsel.SelectOtherError` | app/routers/parsel.py:69-73 | any other exception gives code 2, with the message embedding the exception text, and data None |
| `Parsel.Envelope` | app/routers/parsel.py:120-124 | the `ParselResponse` has every response field. Its `path_data` is text or None: the raw extracted value for XPATH and CSS, JSON text for REGEX |
| `Parsel.ParseDataWithParselSelectors` | app/routers/parsel.py:116-132 | a JSON response unless DATA_ONLY. BASIC has exactly the three allowed fields and VERBOSE all fields. DATA_ONLY carries text or None |
| `Parsel.DataOnlyIsVerbosePathData` | app/routers/parsel.py:129-130 | a DATA_ONLY body renders to the same text as the VERBOSE envelope's `path_data`, and it always renders |
| `Parsel.ExampleSubjectIsTrimmed` | app/routers/examples.py:12-15 | on the example note, the third span's text is the subject after a space; the route returns the bare subject "You scraped me 🤕" |

## Left out

- The outbound GET (`httpx.AsyncClient`, `asyncio.gather`, the User-Agent header, app/util.py:103-108 and 118-123) is I/O. Its outcome is a parameter (`Util.Fetched`: status code and body).
- The UTF-8 decoding of the body (app/util.py:134) is I/O. The body arrives decoded, and a decoding error is not modelled.
- The internals of parsel, `json`, `xmltodict` and `dpath` are foreign libraries. They are uninterpreted fields of `Foreign.Libraries`, and `json.dumps(..., indent=2)` is an uninterpreted `Val -> string`.
- FastAPI routing, `Depends` and the examples in the route responses are framework plumbing.
- pydantic validation is framework plumbing: `AnyUrl` normalisation, and the coercion of values into the declared `int`/`str`/`list` field types. A None code or message is kept as None rather than rejected. The enum coercion of the query parameters is modelled (`ParseDpathPathType`, `ParseParselPathType`, `ParseReturnStyle`).
- `CacheInfo` times and durations are abstract integers: the datetime/timedelta arithmetic and `datetime.now()` have no visible implementation. Where a cached item comes from is not part of this model: no cache exists in the code.
- app/config.py, main.py, app/main.py (`/wake`, `/user_agents`), the example endpoints, app/test_main.py and examples/*.py are configuration, legacy handlers returning constants, and network test clients.
- `Values.Val` has no floating-point numbers.
- Text.Lower: only ASCII letters are lower-cased. Python's `str.lower()` folds more of Unicode. But no other character lower-cases to "h", "t" or "p", so the "http" test has the same outcome.
- `make_basic` on a non-dict object deletes from the object's `__dict__`. That is the same map operation, so it is not modelled separately.
- Dependencies.AsBasic: "does not modify the receiver" is not a contract. The envelope is an immutable value, so this holds by construction.
- An f-string formats the path type as its string value (for example `JSON`), which is how Python up to 3.10 formats a `str`-mixin enum member. From Python 3.11 on, the f-string gives the qualified member name, so the code-1 message would end in `'DpathPathTypes.JSON'` or `'ParselPathTypes.XPATH'` rather than `'JSON'` or `'XPATH'`; `Dpath.LookupKeyError` and `Parsel.SelectKeyError` state the 3.10 text.

## Findings

| source | as written | input that shows it | evidently intended | confidence | as-written member | corrected member |
|---|---|---|---|---|---|---|
| app/util.py:157-163 | the JSON branch parses `self.full_response`, an attribute the retriever never defines | path type JSON on any document, e.g. body `{"a": 1}` with path `/a`: code 2, "…no attribute 'full_response'" | parse the fetched body (`raw_data`) and look the path up in it, as the dpath route does | not executed; high | `Util.SnapshotJsonAlwaysFails` | `Dpath.LookupFound` |
| app/util.py:164-175 | the XML branch reads `self.full_response` inside its own `try`, so the missing attribute is reported as invalid XML | path type XML on any well-formed document, e.g. `<a>1</a>`: code 3 | parse the fetched body, reporting code 3 only for documents that are not XML | not executed; high | `Util.SnapshotXmlAlwaysFails` | `Dpath.LookupFound` |
| app/util.py:177-179 | the `KeyError` handler formats `self.path_type_name`, which does not exist, so the handler itself raises and the request fails | none known: the JSON and XML branches fail on `full_response` first, and parsel reports selector and query failures as other exceptions, so the defect is latent; it triggers whenever `Selector(...)` or the XPath query raises `KeyError` | code 1 with a message naming the path type, returned normally, as both routers do | not executed; high that the handler raises, medium that it is reachable | `Util.SnapshotKeyErrorEscapes` | `Parsel.SelectKeyError` |
