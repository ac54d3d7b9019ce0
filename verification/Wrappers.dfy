/** The optional value used where the Go code has a pointer that may be nil. */
module Wrappers {
  datatype Option<+T> = None | Some(value: T)
}
