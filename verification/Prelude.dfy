/** Shared datatypes: an optional value and a call that may fail. */
module Prelude {

  datatype Option<+T> = None | Some(value: T)

  /** The outcome of a call that returns a value or a Go `error`. */
  datatype Outcome<+T> = Ok(value: T) | Err
}
