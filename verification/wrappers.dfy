/** The optional-value datatype shared by the model. */
module Wrappers {

  /** A value that may be absent: the model's stand-in for Python's `None` and rekall's NoneObject. */
  datatype Option<+T> = None | Some(value: T)
}
