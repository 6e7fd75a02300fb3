/** The Python values that flow through the service: what the selector
    libraries return, what the response envelope holds. */
module Values {

  /** A JSON-shaped Python value. Floating-point numbers are not modelled. */
  datatype Val =
    | Null
    | Bool(b: bool)
    | Num(n: int)
    | Str(s: string)
    | List(items: seq<Val>)
    | Map(entries: map<string, Val>)

  /** A list of Python strings. */
  function Strs(xs: seq<string>): (r: seq<Val>)
    ensures |r| == |xs|
    ensures forall i :: 0 <= i < |xs| ==> r[i] == Str(xs[i])
  {
    if xs == [] then [] else [Str(xs[0])] + Strs(xs[1..])
  }
}
