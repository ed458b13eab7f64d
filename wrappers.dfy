/** Small failure-compatible wrappers shared by the other modules. */
module Wrappers {

  /** A value that may be absent; models the fields the source leaves at `None`. */
  datatype Option<+T> = None | Some(value: T)

  /** The outcome of a step that either completes or raises an error. */
  datatype Outcome<+E> = Pass | Fail(error: E)
}
