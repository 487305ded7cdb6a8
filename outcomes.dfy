/** Abstract outcomes of the calls the screens make to code outside the model. */
module Outcomes {

  /** A value that may be missing (an `undefined` field or body in the JavaScript). */
  datatype Option<+T> = None | Some(value: T)

  /** What an awaited `api.get` produces: the part of the response body the caller
      reads, or a thrown error (network failure, rate limit, bad status). */
  datatype Remote<+T> = Success(data: T) | Failure
}
