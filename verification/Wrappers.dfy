/** The two result shapes used throughout: an optional value, and a value or an error. */
module Wrappers {

  datatype Option<+T> = None | Some(value: T)

  /** Errors carry no detail: callers of the modelled code only test for their presence. */
  datatype Result<+T> = Ok(value: T) | Err
}
