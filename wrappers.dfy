/** A value that may be absent: a nullable pointer or an SQL NULL column. */
module Wrappers {
  datatype Option<+T> = None | Some(value: T)
}
