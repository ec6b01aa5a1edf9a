/** Option and Result: the two failure-carrying shapes the model uses for
    "absent" values and for the exceptions the server catches. */
module Wrappers {

  datatype Option<+T> = None | Some(value: T)

  datatype Result<+R, +E> = Ok(value: R) | Err(error: E)
}
