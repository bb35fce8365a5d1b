/** The Option datatype used where the program returns a nil pointer, a false `ok` or an error. */
module Options {
  datatype Option<+T> = None | Some(value: T)
}
