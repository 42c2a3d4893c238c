/** The optional value used where the source returns null, undefined or None. */
module Wrappers {
  datatype Option<+T> = None | Some(value: T)
}
