/** The optional value that a Python function returning a value or `None` is modelled with. */
module Wrappers {
  datatype Option<+T> = None | Some(value: T)
}
