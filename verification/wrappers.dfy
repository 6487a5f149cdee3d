/** A value that may be absent; Python's `None` for the watermark fields. */
module Wrappers {
  datatype Option<+T> = None | Some(value: T)
}
