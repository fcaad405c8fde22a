/**
 * The exceptions the core throws and how the REST layer turns them into HTTP
 * responses (GlobalExceptionHandler with the codes of ErrorList).
 */
module Errors {

  /** ErrorList: each constant carries a two-digit code and a description. */
  datatype ErrorList = FailedConnectToBackend | DataNotFound | UserNotFound | InvalidCredentials {
    function Code(): string {
      match this
      case FailedConnectToBackend => "40"
      case DataNotFound => "44"
      case UserNotFound => "44"
      case InvalidCredentials => "41"
    }

    function Description(): string {
      match this
      case FailedConnectToBackend => "Failed connect to backend"
      case DataNotFound => "Data not found"
      case UserNotFound => "User not found"
      case InvalidCredentials => "Invalid username or password"
    }
  }

  /** Which layer raised a ServiceException; the handler ignores it. */
  datatype Origin = Postgre | Microservice

  /** The exception classes other than ServiceException that the core lets escape. */
  datatype ExceptionKind =
    | ResourceNotFound
    | IllegalState
    | IllegalArgument
    | InsufficientStock
    | NumberFormat
    | RedisConnectionFailure
    | RedisScriptError
    | AccessDenied
    | NullPointer

  /** A thrown exception: a ServiceException built from an ErrorList constant, or any other. */
  datatype Failure =
    | ServiceError(origin: Origin, error: ErrorList)
    | Unhandled(kind: ExceptionKind, message: string)
  {
    /** `getMessage()`: a ServiceException's message is its constant's description. */
    function Message(): string {
      match this
      case ServiceError(_, e) => e.Description()
      case Unhandled(_, m) => m
    }
  }

  /** An operation's outcome: its value, or the exception it threw. */
  datatype Outcome<+T> = Success(value: T) | Thrown(failure: Failure)

  datatype ErrorBody = ErrorBody(status: string, code: string, message: string)

  datatype ErrorResponse = ErrorResponse(httpStatus: int, body: ErrorBody)

  /** handleServiceException: the status is chosen from the code; the body echoes code and message. */
  function HandleServiceException(code: string, message: string): (r: ErrorResponse)
    ensures r.body == ErrorBody("Failed", code, message)
    ensures code == "44" ==> r.httpStatus == 404
    ensures code == "40" ==> r.httpStatus == 400
    ensures code == "41" ==> r.httpStatus == 401
    ensures r.httpStatus == 500 <==> code != "44" && code != "40" && code != "41"
    ensures r.httpStatus in {400, 401, 404, 500}
  {
    var status :=
      if code == "44" then 404
      else if code == "40" then 400
      else if code == "41" then 401
      else 500;
    ErrorResponse(status, ErrorBody("Failed", code, message))
  }

  /** handleGeneralException: every other exception is a 500 with code "99". */
  function HandleGeneralException(message: string): (r: ErrorResponse)
    ensures r.httpStatus == 500 && r.body.code == "99" && r.body.status == "Failed"
    ensures r.body.message == message
  {
    ErrorResponse(500, ErrorBody("Failed", "99", message))
  }

  /** The handler Spring picks for a thrown exception: the ServiceException one when it applies. */
  function Handle(f: Failure): (r: ErrorResponse)
    ensures r.body.status == "Failed" && r.body.message == f.Message()
    ensures f.ServiceError? ==> r.body.code == f.error.Code()
    ensures f.Unhandled? ==> r.httpStatus == 500 && r.body.code == "99"
  {
    match f
    case ServiceError(_, e) => HandleServiceException(e.Code(), e.Description())
    case Unhandled(_, m) => HandleGeneralException(m)
  }

  /** Every ErrorList constant lands on a 4xx status: none reaches the 500 fallback. */
  lemma {:induction false} ServiceErrorStatuses(origin: Origin, e: ErrorList)
    ensures Handle(ServiceError(origin, e)).httpStatus ==
      match e
      case DataNotFound => 404
      case UserNotFound => 404
      case FailedConnectToBackend => 400
      case InvalidCredentials => 401
  {
    match e
    case DataNotFound =>
    case UserNotFound =>
    case FailedConnectToBackend =>
    case InvalidCredentials =>
  }
}
