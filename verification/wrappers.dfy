/** Failure-carrying values used across the model: an optional value and a
    value-or-error result, in place of Python's `None` and raised exceptions. */
module Wrappers {

  datatype Option<+T> = None | Some(value: T)

  datatype Result<+R, +E> = Ok(value: R) | Err(error: E)
}
