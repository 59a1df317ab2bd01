/** Kotlin's nullable values (`T?`): a row that may be absent, a column that may be NULL. */
module Optional {

  datatype Option<+T> = None | Some(value: T)
}
