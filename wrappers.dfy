/** The optional-value datatype shared by the envelope modules. */
module Wrappers {

  /** A value that may be absent, such as an optional callback argument. */
  datatype Option<+T> = None | Some(value: T)
}
