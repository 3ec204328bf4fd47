/** The optional value used wherever the routers either obtain something or do not. */
module Options {

  datatype Option<+T> = None | Some(value: T)
}
