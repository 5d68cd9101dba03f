module Option {
  /** A nullable column or an absent value. */
  datatype Option<+T> = None | Some(value: T)
}
