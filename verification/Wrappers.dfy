/** Values that may be missing, for the pointers and errors of the source. */
module Wrappers {
  datatype Option<+T> = None | Some(value: T)
}
