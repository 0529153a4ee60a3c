/** The optional value used across the model, for Python's `X | None`. */
module Options {
  datatype Option<+T> = None | Some(value: T)
}
