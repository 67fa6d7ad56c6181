/** Shared vocabulary: optional values, the HTTP failures the routes raise,
    and the calendar-day view of integer timestamps. */
module Common {

  datatype Option<T> = None | Some(value: T)

  /** The HTTP error statuses raised by the routes and middlewares. */
  datatype Failure =
    | BadRequest       // 400
    | Unauthorized     // 401
    | NotFound         // 404
    | Unprocessable    // 422, request-body validation
    | TooManyRequests  // 429
    | ServerError      // 500, an unhandled exception

  /** The result of a route: a response body, or the status it raised. */
  datatype Result<T> = Ok(value: T) | Err(error: Failure)

  /** The result of a guard that either lets the request through or raises. */
  datatype Outcome = Pass | Fail(error: Failure)

  /** Timestamps are whole seconds since the epoch (UTC). */
  const SecondsPerDay: int := 86400

  /** The UTC calendar day of a timestamp, as `datetime.date()` gives it
      (floor division; Dafny's `/` floors for a positive divisor). */
  function Day(t: int): int
  {
    t / SecondsPerDay
  }

  function Min(a: int, b: int): int
  {
    if a <= b then a else b
  }

  function Max(a: int, b: int): int
  {
    if a >= b then a else b
  }
}
