/** The optional value used for Go's nil-able results (a parsed address, a decoded list,
    the value received from a channel). */
module Wrappers {
  datatype Option<+T> = None | Some(value: T)
}
