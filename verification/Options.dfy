/** The optional value several components use. */
module Options {
  datatype Option<+T> = None | Some(value: T)
}
