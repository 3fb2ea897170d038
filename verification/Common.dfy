/** Types shared by the modules of the model. */
module Common {
  datatype Option<+T> = None | Some(value: T)
}
