/** The optional value used wherever the program returns a zero value together with a false flag. */
module Options {
  datatype Option<+T> = None | Some(value: T)
}
