/** The optional value used for content that may be missing (an unreadable settings file). */
module Wrappers {
  datatype Option<+T> = None | Some(value: T)
}
