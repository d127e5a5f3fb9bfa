/** The optional value used where the application holds or returns `null`. */
module Wrappers {
  datatype Option<+T> = None | Some(value: T)
}
