/** An optional value: a table key that may be missing, a stored balance that may be absent. */
module Optional {
  datatype Option<+T> = None | Some(value: T)
}
