/** How a parser's `_get_path_data` turns what the libraries did into its
    error attributes and the data it returns. Both routers share these rules
    and message texts. */
module Extraction {
  import opened Wrappers
  import opened Values
  import opened Text

  /** The parser's `error_code` and `error_msg` attributes. */
  datatype ErrorFields = ErrorFields(code: Option<int>, msg: Option<string>)

  /** What `_get_path_data` leaves behind: the error attributes, and the data it returns. */
  datatype PathDataResult = PathDataResult(errors: ErrorFields, data: Val)

  const XmlParseErrorMsg: string := "Error parsing XML data. Are you sure the data is valid XML?"

  /** Code 3: the document is not XML. */
  const XmlParseFailure: ErrorFields := ErrorFields(Some(3), Some(XmlParseErrorMsg))

  const PathErrorPrefix: string := "Path error, please enter a valid Path value for the type "
  const ComboErrorPrefix: string := "There was an error with your Path and Path Type combo: "

  /** Code 1's message, naming the path type in single quotes. */
  function PathErrorMsg(typeName: string): string {
    PathErrorPrefix + "'" + typeName + "'"
  }

  /** Code 2's message, embedding the exception's text. */
  function ComboErrorMsg(text: string): string {
    ComboErrorPrefix + text
  }

  predicate EndsWith(s: string, suffix: string) {
    |suffix| <= |s| && s[|s| - |suffix|..] == suffix
  }

  /** The `except KeyError` / `except Exception` handlers around a `try`
      body whose outcome is `body`. Success assigns nothing, so the error
      attributes keep whatever they held before. */
  function Classify(prior: ErrorFields, typeName: string, body: PyCall<Val>): (e: PathDataResult)
    ensures body.Value? ==> e.errors == prior && e.data == body.value
    ensures !body.Value? ==> e.data == Null && e.errors.code.Some? && e.errors.msg.Some?
    ensures body.KeyErr? ==> e.errors.code == Some(1) && EndsWith(e.errors.msg.value, "'" + typeName + "'")
    ensures body.OtherErr? ==> e.errors.code == Some(2) && EndsWith(e.errors.msg.value, body.text)
  {
    match body
    case Value(v) => PathDataResult(prior, v)
    case KeyErr =>
      var msg := PathErrorMsg(typeName);
      assert msg[|PathErrorPrefix|..] == "'" + typeName + "'";
      PathDataResult(ErrorFields(Some(1), Some(msg)), Null)
    case OtherErr(text) =>
      var msg := ComboErrorMsg(text);
      assert msg[|msg| - |text|..] == text;
      PathDataResult(ErrorFields(Some(2), Some(msg)), Null)
  }

  /** `data.strip() if type(data) == str else data` */
  function TrimIfString(v: Val): (r: Val)
    ensures v.Str? <==> r.Str?
    ensures v.Str? ==> IsStripOf(v.s, r.s)
    ensures !v.Str? ==> r == v
  {
    if v.Str? then Str(Strip(v.s)) else v
  }

  /** Trimming a returned value a second time changes nothing. */
  lemma {:induction false} TrimIfStringIdempotent(v: Val)
    ensures TrimIfString(TrimIfString(v)) == TrimIfString(v)
  {
    if v.Str? {
      StripIdempotent(v.s);
    }
  }

  /** The `return` at the end of a router's `_get_path_data`: only a
      top-level string is trimmed. */
  function Finish(e: PathDataResult): (r: PathDataResult)
    ensures r.errors == e.errors
    ensures e.data.Str? ==> r.data.Str? && IsStripOf(e.data.s, r.data.s)
    ensures !e.data.Str? ==> r.data == e.data
    ensures r.data == TrimIfString(e.data)
  {
    PathDataResult(e.errors, TrimIfString(e.data))
  }
}
