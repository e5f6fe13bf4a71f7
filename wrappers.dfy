/** Option and Outcome, the two failure-carrying shapes the model needs. */
module Wrappers {

  /** A value that may be absent (Python's `None`). */
  datatype Option<+T> = None | Some(value: T)

  /** The outcome of a step that returns nothing of interest but may raise `error`. */
  datatype Outcome<+E> = Pass | Fail(error: E)
}
