/** Small shared datatypes. */
module Base {
  datatype Option<+T> = None | Some(value: T)
}
