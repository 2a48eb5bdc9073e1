/** The optional value that every model shares. */
module Wrappers {
  datatype Option<+T> = None | Some(value: T)
}
