/** The third-party libraries the service delegates to, as uninterpreted
    functions: every contract that mentions them holds for whatever they do. */
module Foreign {
  import opened Wrappers
  import opened Values

  /** A parsel `Selector` built from a document's text. */
  datatype Selector = Selector(text: string)

  /** One behaviour of each library call the service makes. */
  datatype Libraries = Libraries(
    /** `Selector(text=doc)` */
    newSelector: string -> PyCall<Selector>,
    /** every match of `selector.xpath(path)`, serialized as parsel does */
    xpath: (Selector, string) -> PyCall<seq<string>>,
    /** every match of `selector.css(path)` */
    css: (Selector, string) -> PyCall<seq<string>>,
    /** `selector.re(pattern)`: the matched groups */
    re: (Selector, string) -> PyCall<seq<string>>,
    /** `json.loads(doc)` */
    jsonLoads: string -> PyCall<Val>,
    /** `xmltodict.parse(doc)` */
    xmlParse: string -> PyCall<Val>,
    /** `dpath.util.get(obj, path)` */
    dpathGet: (Val, string) -> PyCall<Val>,
    /** `json.dumps(value, indent=2)` */
    jsonDumps: Val -> string)

  /** parsel's `SelectorList.get()`: the first match, or `None` when there is none. */
  function First(matches: seq<string>): (r: Val)
    ensures matches == [] <==> r == Null
    ensures matches != [] ==> r == Str(matches[0])
  {
    if matches == [] then Null else Str(matches[0])
  }
}
