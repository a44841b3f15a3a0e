/** The optional value used for nullable columns, pointers and error returns. */
module Options {
  datatype Option<+T> = None | Some(value: T)
}
