/** Option and Result, used for the matchers' "[] or tuple" returns and for
    the exceptions that peak detection can raise. */
module Wrappers {

  datatype Option<+T> = None | Some(value: T)

  datatype Result<+T, +E> = Ok(value: T) | Err(error: E)
}
