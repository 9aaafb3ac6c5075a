/** Small failure-carrying datatypes shared by the other modules. */
module Wrappers {

  /** An optional value: Go's "found" flag or a `-1` index. */
  datatype Option<+T> = None | Some(value: T)

  /** The outcome of a check: Go's `error` result, nil (`Pass`) or not. */
  datatype Outcome<+E> = Pass | Fail(error: E)
}
