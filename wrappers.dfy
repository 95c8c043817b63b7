/** Small failure-compatible wrapper shared by the other modules. */
module Wrappers {

  /** A value that may be absent, standing for Python's `None`. */
  datatype Option<+T> = None | Some(value: T)
}
