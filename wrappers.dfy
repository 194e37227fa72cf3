/** Optional values and pass/fail outcomes, used across the model. */
module Wrappers {

  /** A value that may be missing (Python's `None`). */
  datatype Option<+T> = None | Some(value: T)

  /** The result of a call that either completes or raises an error. */
  datatype Outcome<+E> = Pass | Fail(error: E)
}
