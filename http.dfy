/**
 * What a service call can do (return a value or throw) and what a handler
 * sends back (a success status with a body, or an error status).
 */
module Http {
  import opened Wrappers
  const OK := 200
  const CREATED := 201
  const BAD_REQUEST := 400
  const UNAUTHORIZED := 401
  const NOT_FOUND := 404
  const INTERNAL_SERVER_ERROR := 500

  /** A thrown error: an `HttpException` carrying a status, or anything else (an ORM error). */
  datatype Failure = HttpException(status: int) | OtherError

  /** The result of awaiting a call that may throw. */
  datatype Outcome<+T> = Returned(value: T) | Threw(failure: Failure)

  /** What the client receives. */
  datatype Response<+T> = Success(status: int, body: T) | Error(status: int)

  /** JavaScript truthiness of an optional string (a query parameter, a body field, a user id). */
  predicate Truthy(s: Option<string>) {
    s.Some? && s.value != ""
  }

  /**
   * `catch (error) { if (error instanceof HttpException) throw error; throw 500 }`:
   * an HttpException keeps its status, every other failure becomes 500.
   */
  function Rethrowing<T>(o: Outcome<T>, successStatus: int): (r: Response<T>)
    ensures o.Returned? ==> r == Success(successStatus, o.value)
    ensures o == Threw(OtherError) ==> r == Error(INTERNAL_SERVER_ERROR)
    ensures o.Threw? && o.failure.HttpException? ==> r == Error(o.failure.status)
  {
    match o
    case Returned(v) => Success(successStatus, v)
    case Threw(HttpException(s)) => Error(s)
    case Threw(OtherError) => Error(INTERNAL_SERVER_ERROR)
  }

  /** `catch { throw 500 }`: every failure, an HttpException included, becomes 500. */
  function Flattening<T>(o: Outcome<T>, successStatus: int): (r: Response<T>)
    ensures o.Returned? ==> r == Success(successStatus, o.value)
    ensures o.Threw? ==> r == Error(INTERNAL_SERVER_ERROR)
  {
    match o
    case Returned(v) => Success(successStatus, v)
    case Threw(_) => Error(INTERNAL_SERVER_ERROR)
  }
}
