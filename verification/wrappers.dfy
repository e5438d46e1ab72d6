/** A value that may be absent: Go's nil message, a key that was not looked up. */
module Wrappers {

  datatype Option<+T> = None | Some(value: T)
}
