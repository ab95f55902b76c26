/** The optional value used for JavaScript's `T | null` and for a missing object key. */
module Wrappers {
  datatype Option<+T> = None | Some(value: T)
}
