/** The optional value used for the source's `guard let` and range checks. */
module Options {
  datatype Option<+T> = None | Some(value: T)
}
