/** A value that may be absent: a nullable column, an ORM aggregate over no rows, an optional query parameter. */
module Wrappers {
  datatype Option<+T> = None | Some(value: T)
}
