/** The optional-value datatype shared by the other modules. */
module Wrappers {

  /** A value that may be absent, in place of Python's `None`. */
  datatype Option<+T> = None | Some(value: T)
}
