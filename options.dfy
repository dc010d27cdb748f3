/** A value that may be absent: Python's `None` or an object. */
module Options {
  datatype Option<+T> = None | Some(value: T)
}
