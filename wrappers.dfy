/** The outcome of a validating constructor: a value, or what went wrong. */
module Wrappers {

  datatype Result<+T, +E> = Ok(value: T) | Err(error: E)
}
