/** Option and Result, the failure-carrying values the model returns, and `Last`. */
module Wrappers {

  datatype Option<+T> = None | Some(value: T)

  datatype Result<+T, +E> = Ok(value: T) | Err(error: E)

  /** The last element of a sequence, as an iterator's `last()` gives it. */
  function Last<T>(s: seq<T>): Option<T> {
    if |s| == 0 then None else Some(s[|s| - 1])
  }
}
