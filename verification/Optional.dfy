/** A value that may be missing: a nil pointer, an absent map key, a read that failed. */
module Optional {
  datatype Option<+T> = None | Some(value: T)
}
