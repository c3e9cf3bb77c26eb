/** The optional value used in place of Kotlin's nullable references. */
module Wrappers {
  datatype Option<+T> = None | Some(value: T)
}
