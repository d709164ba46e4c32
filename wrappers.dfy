/** The optional value used for "an RTT or nothing" and for results that may be absent. */
module Wrappers {
  datatype Option<+T> = None | Some(value: T)
}
