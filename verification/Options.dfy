/** An optional value: the source's None. */
module Options {
  datatype Option<+T> = None | Some(value: T)
}
