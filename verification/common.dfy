/** Small value wrappers shared by the modules of the model. */
module Common {

  /** A JavaScript value that may be absent (`undefined` or `null`). */
  datatype Option<+T> = None | Some(value: T)
}
