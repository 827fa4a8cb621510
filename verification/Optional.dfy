/** Pointers of the API types that may be nil. */
module Optional {
  datatype Option<+T> = None | Some(value: T)
}
