/** The conventional Some/None type, used for SQL NULLs and Go's nil. */
module Options {
  datatype Option<+T> = None | Some(value: T)
}
