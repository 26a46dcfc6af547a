/** The optional value used wherever the source stores `null` or an absent entry. */
module Options {

  datatype Option<+T> = None | Some(value: T)

}
