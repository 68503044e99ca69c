/** A value that may be absent: Java's `null` and the failure of a parse. */
module Wrappers {
  datatype Option<+T> = None | Some(value: T)
}
