/** The optional value used wherever the source holds `null` or an absent entry. */
module Options {
  datatype Option<+T> = None | Some(value: T)
}
