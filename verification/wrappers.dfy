/** A value that may be absent: the model's stand-in for a null pointer and for a failed lookup. */
module Wrappers {
  datatype Option<+T> = None | Some(value: T)
}
