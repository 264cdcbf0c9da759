/** An optional value: the model's stand-in for JavaScript's `null`/`undefined`. */
module Optional {

  datatype Option<+T> = None | Some(value: T)
}
