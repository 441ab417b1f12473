/** A value that may be absent: a null pointer, a missing attribute. */
module Wrappers {
  datatype Option<+T> = None | Some(value: T)
}
