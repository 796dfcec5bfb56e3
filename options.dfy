/** A value that may be missing: the model of the source's nullable variables. */
module Options {
  datatype Option<+T> = None | Some(value: T)
}
