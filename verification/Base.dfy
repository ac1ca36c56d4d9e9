/** Shared vocabulary of the models. */
module Base {
  datatype Option<+T> = None | Some(value: T)
}
