/** Failure-carrying wrappers and the Python exceptions the pipeline raises or swallows. */
module Base {

  datatype Option<+T> = None | Some(value: T)

  datatype Result<+R, +E> = Ok(value: R) | Err(error: E)

  /** The exception classes that matter to the fetch pipeline.
      `HTTPError` is what `raise_for_status` raises; `NetworkError` stands for the other
      `requests.RequestException` subclasses (timeouts, DNS failures, resets); `OtherError`
      is any exception outside that hierarchy. */
  datatype Exc =
    | HTTPError(status: int)
    | NetworkError(code: nat)
    | OtherError(code: nat)
    | RuntimeError(message: string)
    | IndexError
    | ValueError
  {
    /** True for the exceptions an `except requests.RequestException` clause catches. */
    predicate IsRequestException() {
      HTTPError? || NetworkError?
    }
  }
}
