/** The optional value used for the source's nil-able results. */
module Wrappers {
  datatype Option<+T> = None | Some(value: T)
}
