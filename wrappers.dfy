/** Option: a value that may be absent (Go's nil pointer or a failed parse). */
module Wrappers {

  datatype Option<+T> = None | Some(value: T)
}
