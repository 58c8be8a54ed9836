/** The optional value shared by the other modules. */
module Wrappers {

  /** A value that may be missing: JavaScript's null / undefined, or a failed evaluation. */
  datatype Option<+T> = None | Some(value: T)
}
