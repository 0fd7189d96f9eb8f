/** The optional value used wherever the source returns -1, None or "no result". */
module Options {

  datatype Option<T> = None | Some(value: T)
}
