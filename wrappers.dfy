/** Ruby's `nil` as an explicit absence: a hash key that is missing or holds nil. */
module Wrappers {

  datatype Option<+T> = None | Some(value: T)
}
