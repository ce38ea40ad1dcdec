/** The optional value the other modules use for a nullable variable. */
module Options {
  datatype Option<+T> = None | Some(value: T)
}
