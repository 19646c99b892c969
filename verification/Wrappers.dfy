/** Option, used wherever the source stores None or a value. */
module Wrappers {
  datatype Option<+T> = None | Some(value: T)
}
