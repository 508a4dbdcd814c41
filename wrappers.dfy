/** The conventional optional value, used for partial parses and for operations that can raise. */
module Wrappers {
  datatype Option<+T> = None | Some(value: T)
}
