/** The Option and Outcome types shared by the other modules. */
module Wrappers {

  /** A value that may be absent (a Java field left null). */
  datatype Option<+T> = None | Some(value: T)

  /** The outcome of a check that either passes or fails with an error
      (a Java method that returns normally or throws). */
  datatype Outcome<+E> = Pass | Fail(error: E)
}
