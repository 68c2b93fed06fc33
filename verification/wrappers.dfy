/** The optional value used where the Python code has `None` or a failed parse. */
module Wrappers {
  datatype Option<+T> = None | Some(value: T)
}
