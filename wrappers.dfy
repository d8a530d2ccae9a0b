/** Failure-carrying values used in place of `undefined` and of thrown errors. */
module Wrappers {
  datatype Option<+T> = None | Some(value: T)

  datatype Result<+T, +E> = Ok(value: T) | Err(error: E)

  /** How an event handler ended: it ran to completion, or it threw `error`. */
  datatype Outcome<+E> = Done | Threw(error: E)
}
