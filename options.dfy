/** The usual optional-value datatype, used where the source has `undefined` or `null`. */
module Options {

  datatype Option<+T> = None | Some(value: T)
}
