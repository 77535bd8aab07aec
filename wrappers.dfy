/** Option and Result types, and the Python exception classes the builder can raise. */
module Wrappers {

  datatype Option<+T> = None | Some(value: T)

  /** Python exception classes raised by the graph builder (the message text is not modelled). */
  datatype PyError =
    | IndexError      // subscript out of range, e.g. the first character of an empty token
    | ValueError      // int() of a malformed literal, list.index of a missing value, unknown dataset
    | KeyError        // dict lookup of a missing key
    | TypeError       // len(None)
    | AssertionError  // a failed assert statement

  datatype Result<+T> = Ok(value: T) | Err(error: PyError)

  /** Elements of an optional value as a sequence of zero or one elements. */
  function OptionSeq<T>(o: Option<T>): (r: seq<T>)
    ensures |r| <= 1
    ensures o.Some? ==> r == [o.value]
    ensures o.None? ==> r == []
  {
    if o.Some? then [o.value] else []
  }
}
