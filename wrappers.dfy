/** Small failure-carrying datatypes shared by the modules of this model. */
module Wrappers {

  /** A value that may be absent: Python's `None` or a missing dictionary key. */
  datatype Option<+T> = None | Some(value: T)

  /** The outcome of a step that may raise: a value, or an exception that the caller catches. */
  datatype Result<+T> = Ok(value: T) | Raised
}
