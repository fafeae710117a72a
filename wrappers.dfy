/** The optional value used wherever NetNewsWire's Swift code has an optional or a
    `try?` that turns a thrown error into nil. */
module Wrappers {

  datatype Option<+T> = None | Some(value: T)
}
