/** Optional values and pass/fail outcomes used across the model. */
module Wrappers {

  /** A value that may be absent: a nullable column, or a lookup that found nothing. */
  datatype Option<+T> = None | Some(value: T)

  /** The outcome of a check that either passes or raises a validation error. */
  datatype Outcome<+E> = Pass | Fail(error: E)
}
