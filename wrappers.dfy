/** The optional-value datatype shared by the other modules. */
module Wrappers {

  /** A value that may be missing; used for a request value that may be `undefined`. */
  datatype Option<+T> = None | Some(value: T)
}
