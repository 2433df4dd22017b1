/** Small sum types shared by the model. */
module Wrappers {

  /** An optional value; used for the nullable product selection and for
      results that may be missing (NaN, no request issued). */
  datatype Option<+T> = None | Some(value: T)

  /** The outcome of one request to the remote product service: either the
      request succeeded, carrying the response content, or it failed (network
      error, non-2xx status, malformed body: the screen does not tell them apart). */
  datatype Reply<+T> = Success(value: T) | RemoteFailure
}
