/** A value that a row or a query result may lack. */
module Option {
  datatype Option<+T> = None | Some(value: T)
}
