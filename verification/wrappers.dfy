/** Failure-compatible wrappers shared by the modules of this model:
    an optional value, a value-or-error, and a pass-or-raise outcome
    (the model's stand-in for a Python call that may raise). */
module Wrappers {

  datatype Option<+T> = None | Some(value: T)

  datatype Result<+R, +E> = Ok(value: R) | Err(error: E)

  /** The outcome of a call that returns nothing but may raise `error`. */
  datatype Outcome<+E> = Pass | Fail(error: E)
}
