/** Python's `None`-or-value. */
module Options {
  datatype Option<T> = None | Some(value: T)
}
