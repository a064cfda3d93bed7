/** The optional values of the controller: Swift's `T?`. */
module Wrappers {

  datatype Option<T> = None | Some(value: T)
}
