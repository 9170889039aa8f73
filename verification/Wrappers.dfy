/** A value that may be missing, or a step that may not succeed. */
module Wrappers {
  datatype Option<+T> = None | Some(value: T)
}
