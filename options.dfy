/** The conventional optional value, used where the source keeps a "none yet" sentinel. */
module Options {
  datatype Option<T> = None | Some(value: T)
}
