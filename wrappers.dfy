/** The optional value used where the source passes `null` (no listener, no logger, no error). */
module Wrappers {

  datatype Option<+T> = None | Some(value: T)
}
