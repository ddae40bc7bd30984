/** The optional value used for "no prompt" results. */
module Optional {

  datatype Option<+T> = None | Some(value: T)
}
