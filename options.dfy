/** An optional value: what a search attempt found, or nothing. */
module Options {

  datatype Option<+T> = None | Some(value: T)

}
