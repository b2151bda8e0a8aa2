/** The optional value used where the JavaScript code reads a property that may be
    `undefined` (a missing map entry, an absent request field, a missing timestamp). */
module Options {

  datatype Option<+T> = None | Some(value: T)

}
