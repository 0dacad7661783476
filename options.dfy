/** The optional value used throughout the model (JavaScript's `null`). */
module Options {
  datatype Option<+T> = None | Some(value: T)
}
