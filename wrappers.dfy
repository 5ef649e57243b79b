/** An optional value: a callback that may or may not have been supplied. */
module Wrappers {
  datatype Option<+T> = None | Some(value: T)
}
