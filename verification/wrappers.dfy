/** Optional values and the outcome of a call into a foreign library. */
module Wrappers {

  /** Python's `None`, or a present value. */
  datatype Option<+T> = None | Some(value: T)

  /** What a call into a library did: it returned a value, raised a `KeyError`,
      or raised any other exception, whose text (`str(e)`) is kept. */
  datatype PyCall<T> = Value(value: T) | KeyErr | OtherErr(text: string)
  {
    /** Runs the next step of a `try` body on the value; an exception skips
        every later step and propagates unchanged. */
    function Then<U>(next: T -> PyCall<U>): (r: PyCall<U>)
      ensures Value? ==> r == next(value)
      ensures KeyErr? ==> r.KeyErr?
      ensures OtherErr? ==> r.OtherErr? && r.text == text
    {
      match this
      case Value(v) => next(v)
      case KeyErr => KeyErr
      case OtherErr(t) => OtherErr(t)
    }

    /** Applies a step that cannot raise to the value. */
    function Apply<U>(f: T -> U): (r: PyCall<U>)
      ensures Value? <==> r.Value?
      ensures Value? ==> r.value == f(value)
      ensures KeyErr? <==> r.KeyErr?
      ensures OtherErr? ==> r.OtherErr? && r.text == text
    {
      match this
      case Value(v) => Value(f(v))
      case KeyErr => KeyErr
      case OtherErr(t) => OtherErr(t)
    }
  }
}
