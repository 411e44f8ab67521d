/** Small shared datatypes. */
module Common {

  /** A value that may be absent: a null pointer, a missing map entry. */
  datatype Option<T> = None | Some(value: T)
}
