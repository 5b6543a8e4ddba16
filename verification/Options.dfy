/** A value that may be missing, and a call that may raise. */
module Options {
  datatype Option<T> = None | Some(value: T)

  datatype Exception = IndexError | KeyError | RuntimeError | ValueError

  datatype Result<T> = Ok(value: T) | Error(fault: Exception)
}
