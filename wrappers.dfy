/** A value that may be absent: Python's `Optional[...]` and a missing dictionary entry. */
module Wrappers {
  datatype Option<+T> = None | Some(value: T)
}
