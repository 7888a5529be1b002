/** The outcome of an operation that may raise an error. */
module Wrappers {
  datatype Option<+T> = None | Some(value: T)
}
