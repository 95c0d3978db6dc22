/** The optional value returned by lookups that may miss (JavaScript's `null`). */
module Wrappers {
  datatype Option<+T> = None | Some(value: T)
}
