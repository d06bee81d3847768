/** The absent-or-present value used throughout the model (Python `None`,
    a JavaScript value that may be missing, an exception that was raised). */
module Wrappers {
  datatype Option<+T> = None | Some(value: T)
}
