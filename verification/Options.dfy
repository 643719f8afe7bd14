/** The optional value and the terminated string the other modules share. */
module Options {
  datatype Option<+T> = None | Some(value: T)

  /** The text before the terminator of a C string. */
  type CString = s: string | '\0' !in s
}
