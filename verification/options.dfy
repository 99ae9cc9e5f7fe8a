/** Optional values and call outcomes shared by the modules of this model. */
module Options {

  /** A value that may be absent, as a pandas cell that may hold NaN. */
  datatype Option<+T> = None | Some(value: T)

  /** The outcome of a call that either answers or raises. */
  datatype Result<+R, +E> = Success(value: R) | Failure(error: E)
}
