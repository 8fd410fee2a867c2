/** The Some/None datatype that stands for Python's `None`-or-value fields. */
module Wrappers {

  datatype Option<+T> = None | Some(value: T)
}
