/** The optional value used wherever the Python code returns `None` or a dict key may be absent. */
module Wrappers {
  datatype Option<+T> = None | Some(value: T)
}
