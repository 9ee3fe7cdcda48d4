/** An optional value: a JavaScript property that may be undefined or null. */
module Maybe {

  datatype Option<+T> = None | Some(value: T)
}
