/** Small value wrappers shared by the listing and the dashboard models. */
module Wrappers {

  /** A value that may be absent (a nullable column or an optional field). */
  datatype Option<+T> = None | Some(value: T)

  /**
   * What a call to the hosted data API hands back: either the payload or an
   * error descriptor carrying the backend's error code. A rejected `await`
   * (an exception caught by the handler) has the same effect on the views
   * as an error reply and is modelled as one.
   */
  datatype Reply<+T> = Ok(value: T) | Err(code: string)

  function OrElse<T>(o: Option<T>, default: T): (r: T)
  {
    match o
    case Some(v) => v
    case None => default
  }
}
