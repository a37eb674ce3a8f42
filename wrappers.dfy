/** The optional value used for Python's `None`-or-value attributes and results. */
module Wrappers {
  datatype Option<+T> = None | Some(value: T)
}
