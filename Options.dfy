/** The optional value used where the source has `null` or an absent field. */
module Options {
  datatype Option<T> = None | Some(value: T)
}
