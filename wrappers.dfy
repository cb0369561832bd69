/** The optional value used for a nullable column and for a missing row. */
module Wrappers {

  datatype Option<+T> = None | Some(value: T)
}
