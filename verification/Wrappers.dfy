/** The optional value used throughout: a nullable column, a missing row, an unset field. */
module Wrappers {
  datatype Option<+T> = None | Some(value: T)
}
