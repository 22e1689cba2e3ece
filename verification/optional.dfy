/** The optional value used wherever a record field may be absent or a reading may fail. */
module Optional {

  datatype Option<T> = None | Some(value: T)
}
