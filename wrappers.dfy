/** Small failure-carrying datatypes shared by the models. */
module Wrappers {

  /** A value that may be missing: JavaScript's `undefined` or a Java `null` reference. */
  datatype Option<+T> = None | Some(value: T)

  /** The outcome of an operation that either completes or throws `error`. */
  datatype Outcome<+E> = Pass | Fail(error: E)
}
