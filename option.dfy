/** The optional value used for lookups that may miss and for header values that may be absent. */
module Optional {
  datatype Option<+T> = None | Some(value: T)
}
