/** The conventional Some/None, in place of a nullable reference. */
module Options {
  datatype Option<+T> = None | Some(value: T)
}
