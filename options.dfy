/** The optional value used wherever the JavaScript source reads a field that
    may be absent (`undefined` or `null`). */
module Options {

  datatype Option<+T> = None | Some(value: T)

}
