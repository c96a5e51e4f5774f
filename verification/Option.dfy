/** The optional value shared by the models: a missing record, an empty token, a rejected operation. */
module Options {
  datatype Option<+T> = None | Some(value: T)
}
