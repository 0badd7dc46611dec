/** A value that may be absent: Python's None in the services' records. */
module Options {
  datatype Option<+T> = None | Some(value: T)
}
