/** A value that may be absent: Python's None, or the place where an exception is raised. */
module Options {
  datatype Option<+T> = None | Some(value: T)
}
