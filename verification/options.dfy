/** An optional value, standing for a JavaScript reference that may be `null`. */
module Options {

  datatype Option<+T> = None | Some(value: T)
}
