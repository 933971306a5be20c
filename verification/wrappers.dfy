/** The optional value used where the source works with a value or None. */
module Wrappers {
  datatype Option<+T> = None | Some(value: T)
}
