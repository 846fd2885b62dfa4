/**
 * The server's exception hierarchy and the `except` chain every tool ends with.
 *
 * `GTasksError` is the base class; `AuthenticationError`, `ValidationError` and
 * `APIError` derive from it. The message texts are not modelled: an `APIError`
 * carries only which of the four branches of `handle_api_error` produced it.
 */
module Errors {

  /** Which branch of `handle_api_error` raised an `APIError`. */
  datatype ApiReason = NotFound | RateLimited | Unavailable | Generic

  /** A member of the `GTasksError` family; `Base` is the base class itself. */
  datatype Error = Base | Authentication | Validation | Api(reason: ApiReason)

  /** What can escape the body of a tool's `try` block. */
  datatype Raised =
    | Raise(error: Error)   // an exception of the GTasksError family
    | Http(status: int)     // googleapiclient's HttpError with its response status
    | Other                 // any other exception

  /**
   * `handle_api_error`: always raises. The returned value is the exception it
   * raises; there is no path on which it returns normally.
   */
  function HandleApiError(status: int): (e: Error)
    ensures e.Authentication? <==> status == 401 || status == 403
    ensures e == Api(NotFound) <==> status == 404
    ensures e == Api(RateLimited) <==> status == 429
    ensures e == Api(Unavailable) <==> status >= 500
    ensures e == Api(Generic) <==> status !in {401, 403, 404, 429} && status < 500
    ensures e.Authentication? || e.Api?
  {
    if status == 401 || status == 403 then Authentication
    else if status == 404 then Api(NotFound)
    else if status == 429 then Api(RateLimited)
    else if status >= 500 then Api(Unavailable)
    else Api(Generic)
  }

  /**
   * The `except GTasksError: raise` / `except HttpError` / `except Exception`
   * chain of each tool; the last arm is `handle_unexpected_error`, which
   * always raises the base `GTasksError`.
   */
  function Classify(ex: Raised): (e: Error)
    ensures ex.Raise? ==> e == ex.error
    ensures ex.Http? ==> e == HandleApiError(ex.status) && (e.Authentication? || e.Api?)
    ensures !ex.Raise? ==> (e == Base <==> ex.Other?)
    ensures !ex.Raise? ==> e != Validation
  {
    match ex
    case Raise(err) => err
    case Http(status) => HandleApiError(status)
    case Other => Base
  }

  /** The status examples of the error table. */
  lemma ClassifyExamples()
    ensures Classify(Http(401)) == Authentication && Classify(Http(403)) == Authentication
    ensures Classify(Http(404)) == Api(NotFound)
    ensures Classify(Http(429)) == Api(RateLimited)
    ensures Classify(Http(500)) == Api(Unavailable) && Classify(Http(503)) == Api(Unavailable)
    ensures Classify(Http(418)) == Api(Generic) && Classify(Http(400)) == Api(Generic)
    ensures Classify(Raise(Validation)) == Validation
    ensures Classify(Other) == Base
  {
  }
}
