/** The optional value used wherever JavaScript may hand over `undefined` or a call may
    throw instead of returning. */
module Options {
  datatype Option<T> = None | Some(value: T)
}
