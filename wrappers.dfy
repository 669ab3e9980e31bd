/** The usual optional-value datatype, used for Python's `None` and for lookups that may miss. */
module Wrappers {
  datatype Option<+T> = None | Some(value: T)
}
