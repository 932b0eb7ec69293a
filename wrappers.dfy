/** Failure-carrying values used by the create workflow. */
module Wrappers {

  /** A value that may be absent: an option the user did not pass is `None`. */
  datatype Option<+T> = None | Some(value: T)

  /** The outcome of a step that may fail: a resolved or a rejected promise, or a throw. */
  datatype Result<+R, +E> = Ok(value: R) | Err(error: E)
}
