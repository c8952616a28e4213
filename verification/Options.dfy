/** The value that a dictionary lookup, a Python `None` or a missing field may stand for. */
module Options {
  datatype Option<+T> = None | Some(value: T)
}
