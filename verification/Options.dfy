/** The optional value that stands for a pointer which may be NULL. */
module Options {
  datatype Option<T> = None | Some(value: T)
}
