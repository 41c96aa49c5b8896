/** Value types shared by every part of the model. */
module Prelude {

  /** A Go pointer that may be nil. */
  datatype Option<+T> = None | Some(value: T)

  /** A Go `(value, error)` pair; the error text is not modelled. */
  datatype Result<+T> = Ok(value: T) | Err

  /** The last element of a non-empty sequence. */
  function Last<T>(s: seq<T>): T
    requires |s| > 0
  {
    s[|s| - 1]
  }
}
