/** The optional value used wherever the original returns a nullable result. */
module Options {
  datatype Option<T> = None | Some(value: T)
}
