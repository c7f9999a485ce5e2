/** The optional value used for `T | null` and `T | undefined` in the store. */
module Wrappers {
  datatype Option<+T> = None | Some(value: T)
}
