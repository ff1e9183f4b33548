/** An optional value, for the client's optional options. */
module Wrappers {
  datatype Option<+T> = None | Some(value: T)
}
