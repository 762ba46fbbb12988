/** The result types shared by the model: an optional value, and Go's (value, error) pair. */
module Wrappers {
  datatype Option<+T> = None | Some(value: T)

  /** A fallible call: either a value or the error text. */
  datatype Outcome<+T> = Ok(value: T) | Err(message: string)
}
