/** A value that may be absent: a NULL column, a zero time, a row not found. */
module Options {
  datatype Option<+T> = None | Some(value: T)
}
