/** Go's nil-able values and its (value, error) results, as Dafny datatypes. */
module Wrappers {

  /** A value that may be absent: Go's nil slice, nil pointer or nil error. */
  datatype Option<+T> = None | Some(value: T)

  /** The outcome of a codec's decode function: the decoded value or the codec's own error text. */
  datatype Result<+T, +E> = Ok(value: T) | Err(error: E)
}
