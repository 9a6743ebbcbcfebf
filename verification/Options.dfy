/** A nullable column. */
module Options {
  datatype Option<T> = None | Some(value: T)
}
