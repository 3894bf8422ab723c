/** Python's "value or None". */
module Optional {

  datatype Option<+T> = None | Some(value: T)

}
