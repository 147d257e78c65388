/** Vocabulary shared by the modules of this project. */
module Common {

  /** A value that a column or a local variable may lack. */
  datatype Option<+T> = None | Some(value: T)
}
