/** The optional value used wherever the program stores a null. */
module Options {
  datatype Option<+T> = None | Some(value: T)
}
