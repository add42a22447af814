/** A value that may be missing: a SQL NULL, a JavaScript null or undefined, a Go nil. */
module Wrappers {
  datatype Option<+T> = None | Some(value: T)
}
