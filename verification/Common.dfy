/** Datatypes shared by the modules of the project. */
module Common {
  datatype Option<+T> = None | Some(value: T)
}
