/** A value that may be absent: a pointer that may be NULL. */
module Options {
  datatype Option<+T> = None | Some(value: T)
}
