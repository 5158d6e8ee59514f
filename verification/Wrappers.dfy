/** The usual optional value, used for Go's nil pointers and for undefined ldvalue.OptionalInt values. */
module Wrappers {
  datatype Option<+T> = None | Some(value: T)
}
