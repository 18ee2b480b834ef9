/** Values shared by every module of the model: optional values, results,
    and the JavaScript errors the agent throws and inspects. */
module Base {

  /** `undefined`/`null` versus a present value. */
  datatype Option<T> = None | Some(value: T) {
    function GetOr(default: T): T {
      match this
      case Some(v) => v
      case None => default
    }
  }

  /** The error classes the agent constructs or tests with `instanceof`.
      `PlainError` is JavaScript's own `Error` (and any other class the
      agent does not distinguish). */
  datatype ErrorClass =
    | HttpErrorClass
    | RbacUnauthorized
    | Unauthorized
    | TooManyRequests
    | NotFound
    | InternalServer
    | BadRequest
    | Integration
    | Syntax
    | InvalidConfiguration
    | TypeErrorClass
    | PlainError

  /** Diagnostic tags attached to a thrown error. */
  type Tags = map<string, string>

  /** A thrown error as a value.  `httpStatus` is `Some(s)` exactly when the
      error is an `instanceof HttpError` whose `status` is `s`; in this way an
      error class of the shared library may, or may not, extend `HttpError`.
      `tags` is the `tags` property that diagnostics attach. */
  datatype Fault = Fault(cls: ErrorClass, message: string, httpStatus: Option<int>, tags: Option<Tags>)
  {
    predicate IsHttpError() { httpStatus.Some? }
  }

  /** The HTTP status an error class of the shared library carries, for the
      classes that extend `HttpError`. The library itself is not part of
      this model: the classes named after HTTP statuses are taken to extend
      `HttpError` with that status, and the others not to. A plain
      `HttpError` gets its status from the code that throws it. */
  function LibraryStatus(cls: ErrorClass): Option<int> {
    match cls
    case RbacUnauthorized => Some(401)
    case Unauthorized => Some(401)
    case TooManyRequests => Some(429)
    case NotFound => Some(404)
    case InternalServer => Some(500)
    case BadRequest => Some(400)
    case _ => None
  }

  /** `new <cls>(message)` for every class but a plain `HttpError`. */
  function Raise(cls: ErrorClass, message: string): (f: Fault)
    requires cls != HttpErrorClass
    ensures f.cls == cls && f.message == message && f.httpStatus == LibraryStatus(cls) && f.tags.None?
  {
    Fault(cls, message, LibraryStatus(cls), None)
  }

  /** `new HttpError(status, message)`. */
  function RaiseHttp(status: int, message: string): (f: Fault)
    ensures f.cls == HttpErrorClass && f.message == message && f.httpStatus == Some(status) && f.tags.None?
  {
    Fault(HttpErrorClass, message, Some(status), None)
  }

  /** The `name` JavaScript prints for an error of class `cls`. */
  function ClassName(cls: ErrorClass): string {
    match cls
    case HttpErrorClass => "HttpError"
    case RbacUnauthorized => "RbacUnauthorizedError"
    case Unauthorized => "UnauthorizedError"
    case TooManyRequests => "TooManyRequestsError"
    case NotFound => "NotFoundError"
    case InternalServer => "InternalServerError"
    case BadRequest => "BadRequestError"
    case Integration => "IntegrationError"
    case Syntax => "SyntaxError"
    case InvalidConfiguration => "InvalidConfigurationError"
    case TypeErrorClass => "TypeError"
    case PlainError => "Error"
  }

  /** What a template literal `${err}` prints for an error: `<name>: <message>`. */
  function Describe(f: Fault): (s: string)
    ensures |s| > |f.message|
  {
    ClassName(f.cls) + ": " + f.message
  }

  /** The outcome of an operation that completes normally or throws. */
  datatype Result<T> = Ok(value: T) | Err(fault: Fault)

  /** The outcome of an operation that returns nothing or throws. */
  datatype Outcome = Pass | Fail(fault: Fault)
}
