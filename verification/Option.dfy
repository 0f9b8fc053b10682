/** The optional value used wherever the library has a null handle or an empty optional. */
module Option {
  datatype Option<+T> = None | Some(value: T)
}
