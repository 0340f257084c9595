/** Failure-carrying values used for the optional fields and the validation verdicts. */
module Wrappers {

  datatype Option<+T> = None | Some(value: T)

  /** A validation verdict: the accepted value, or the issues that rejected it. */
  datatype Result<+T, +E> = Ok(value: T) | Err(error: E)
}
