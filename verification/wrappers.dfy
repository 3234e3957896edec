/** The optional value used for a quiz answer that has not been chosen yet. */
module Wrappers {
  datatype Option<+T> = None | Some(value: T)
}
