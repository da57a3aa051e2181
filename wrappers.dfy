/** Small value wrappers shared by every module of the model. */
module Wrappers {

  /** A value that may be absent: JavaScript's `null`/`undefined` for a single field. */
  datatype Option<+T> = None | Some(value: T) {
    function GetOr(default: T): T {
      match this
      case Some(v) => v
      case None => default
    }
  }

  /**
   * What a network call comes back with, in the error taxonomy the identity layer uses:
   * a 2xx response with its decoded body, a non-2xx rejection, or a transport failure
   * (the promise rejected). A 2xx response whose body does not parse lands in the same
   * catch block as a transport failure in every caller, so it is `TransportError` here.
   */
  datatype Reply<+T> = Ok(body: T) | Rejected(status: int) | TransportError
}

/** The notifications the components raise through the toast hook. */
module Toasts {
  datatype Toast = Toast(title: string, description: string, destructive: bool)
}
