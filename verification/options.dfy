/** The optional value used wherever the front end holds a pointer that may be null. */
module Options {

  datatype Option<+T> = None | Some(value: T)
}
