/** Failure-carrying result types shared by the other modules. */
module Wrappers {

  /** A value that may be absent, e.g. the result of a parse that failed. */
  datatype Option<+T> = None | Some(value: T)

  /** The outcome of an action that returns nothing but may fail with an error. */
  datatype Outcome<+E> = Pass | Fail(error: E)
}
