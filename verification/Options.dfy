/** The optional value that stands for a Go pointer or slice that may be nil. */
module Options {
  datatype Option<+T> = None | Some(value: T)
}
