/** The optional value used wherever the source has `X | None`. */
module Options {

  datatype Option<+T> = None | Some(value: T)
}
