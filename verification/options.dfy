/** The optional value used wherever the system has `Option<T>`. */
module Options {

  datatype Option<+T> = None | Some(value: T)

}
