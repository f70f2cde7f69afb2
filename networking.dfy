/** `mapNetworkCall` of core/networking: runs a call and wraps its outcome in a `DomainResult`. */
module Networking {
  import opened Wrappers
  import opened CoreDomain

  const NETWORK_ERROR_MESSAGE := "Network error"
  const UNEXPECTED_ERROR_MESSAGE := "Unexpected error"

  /** The message of a throwable, as `Throwable.message` reports it. */
  function MessageOf(t: Throwable): Option<string> {
    match t
    case IOException(m) => m
    case HttpException(_, _, m) => m
    case RateLimitException(_, m) => m
    case OtherException(m) => m
  }

  /**
   * The mapping of a thrown failure: an `IOException` is a network error with
   * a fixed message; anything else keeps its own message, or a fixed one when
   * it has none. The cause is kept; code and data stay null.
   */
  function ErrorFromThrowable<T>(t: Throwable): (r: DomainResult<T>)
    ensures r.Error? && r.cause == Some(t) && r.code.None? && r.errorData.None?
    ensures r.isNetworkError <==> t.IOException?
    ensures t.IOException? ==> r.message == NETWORK_ERROR_MESSAGE
    ensures !t.IOException? && MessageOf(t).Some? ==> r.message == MessageOf(t).value
    ensures !t.IOException? && MessageOf(t).None? ==> r.message == UNEXPECTED_ERROR_MESSAGE
  {
    if t.IOException? then
      Error(NETWORK_ERROR_MESSAGE, None, None, Some(t), true)
    else
      Error(MessageOf(t).GetOr(UNEXPECTED_ERROR_MESSAGE), None, None, Some(t), false)
  }

  /** `mapNetworkCall { block() }`: a returned value is a success, a throw is mapped; never `Empty`. */
  function MapNetworkCall<T>(call: CallOutcome<T>): (r: DomainResult<T>)
    ensures !r.Empty?
    ensures call.Returned? <==> r.Success?
    ensures call.Returned? ==> r == Success(call.value)
    ensures call.Threw? ==> r == ErrorFromThrowable(call.thrown)
  {
    match call
    case Returned(v) => Success(v)
    case Threw(t) => ErrorFromThrowable(t)
  }
}
