/** The optional value used throughout the model (Rust's `Option<T>`). */
module Options {
  datatype Option<+T> = None | Some(value: T)
}
