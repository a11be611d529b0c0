/** Option and the error-carrying Result used throughout the model. A Go `error` is
    modelled by its message, which is what `http.Error` writes to the client. */
module Wrappers {

  datatype Option<+T> = None | Some(value: T)

  datatype Result<+T> = Ok(value: T) | Err(error: string)
}
