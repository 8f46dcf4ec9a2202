/** The optional value, as the program uses it. */
module Options {
  datatype Option<+T> = None | Some(value: T)
}
