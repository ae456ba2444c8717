/** Python's `Optional[T]`: a value that may be `None`. */
module Opt {
  datatype Option<+T> = None | Some(value: T)
}
