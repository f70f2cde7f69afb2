/**
 * The result and state wrappers shared by every layer: `DomainResult`
 * (core/domain), `UiState` (core/designsystem), and the exceptions the
 * upstream calls can throw.
 */
module CoreDomain {
  import opened Wrappers

  /** The throwables the core distinguishes; everything else is `OtherException`. */
  datatype Throwable =
    | IOException(message: Option<string>)
      /** Retrofit's `HttpException`: the status code and the `x-ratelimit-reset` header, if sent. */
    | HttpException(code: int, resetHeader: Option<string>, message: Option<string>)
    | RateLimitException(resetAtEpochSeconds: Option<int>, message: Option<string>)
    | OtherException(message: Option<string>)

  /**
   * `DomainResult<T>`. Kotlin's `Error.data` is named `errorData` here
   * because a datatype cannot have two destructors `data` of different types.
   */
  datatype DomainResult<T> =
    | Success(data: T)
    | Error(message: string, code: Option<int>, errorData: Option<T>,
            cause: Option<Throwable>, isNetworkError: bool)
    | Empty

  /** `UiState<T>`: a `DomainResult` without the cause, plus `Loading`. */
  datatype UiState<T> =
    | UiSuccess(data: T)
    | UiError(message: string, code: Option<int>, errorData: Option<T>, isNetworkError: bool)
    | UiEmpty
    | Loading

  /** What a call into code outside the model did: returned a value or threw. */
  datatype CallOutcome<T> = Returned(value: T) | Threw(thrown: Throwable)
}
