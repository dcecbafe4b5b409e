/** The optional value used for references that may be null in the original program. */
module Wrappers {
  datatype Option<+T> = None | Some(value: T)
}
