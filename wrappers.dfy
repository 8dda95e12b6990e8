/** The optional-value wrapper used throughout the model. */
module Wrappers {

  /** A value that may be absent, like Swift's `Optional`. */
  datatype Option<+T> = None | Some(value: T)
}
