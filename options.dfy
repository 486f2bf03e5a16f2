/** The usual optional value, used for "no bullet found". */
module Options {
  datatype Option<+T> = None | Some(value: T)
}
