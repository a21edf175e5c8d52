// The optional value used wherever the source passes `None`.
module Options {
  datatype Option<+T> = None | Some(value: T)
}
