/** Values shared by the resource models: optional values, results, the
    errors the cloud API returns, and the triple a state-refresh function
    hands to the provider framework's poller. */
module Common {

  datatype Option<+T> = None | Some(value: T)

  datatype Result<+T, +E> = Success(value: T) | Failure(error: E)

  /** An error returned by a call into the cloud API. An `AwsError` carries
      the provider's error code, also when other code has wrapped it with
      `%w`, since the code test looks through such wrapping; an error with no
      such code (a transport error, say) is an `OtherError`. */
  datatype ApiError = AwsError(code: string, message: string) | OtherError(message: string)

  /** The test `tfawserr.ErrMessageContains(err, code, "")`: the error is an
      AWS error whose code is `code`. The message filter is the empty string,
      which every message contains, so only the code decides. */
  predicate ErrCodeIs(err: Option<ApiError>, code: string)
  {
    err.Some? && err.value.AwsError? && err.value.code == code
  }

  /** The first result of a state-refresh function, an untyped Go value. The
      framework's poller treats `Nil` as "object not found"; a refresh that
      wants a non-nil placeholder returns the empty string. */
  datatype RefreshValue<+T> = Nil | EmptyString | Object(obj: T)

  /** What a state-refresh function returns: a value, a state token and an
      optional error. */
  datatype Refreshed<+T, +E> = Refreshed(value: RefreshValue<T>, state: string, error: Option<E>)

  /** How a framework wait (a `StateChangeConf.WaitForState`) ended. The
      poller itself is not modelled: its verdict is an input. */
  datatype WaitOutcome = WaitSucceeded | WaitFailed(reason: string)
}
