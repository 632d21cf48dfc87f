/**
 * The error values the server produces: Connect errors, gRPC status errors,
 * echo HTTP errors and plain Go errors.
 */
module Errors {
  import opened Strings
  /** The sixteen non-OK status codes shared by gRPC and Connect. */
  datatype Code =
    | Canceled | Unknown | InvalidArgument | DeadlineExceeded | NotFound
    | AlreadyExists | PermissionDenied | ResourceExhausted | FailedPrecondition
    | Aborted | OutOfRange | Unimplemented | Internal | Unavailable | DataLoss
    | Unauthenticated

  /** The numeric gRPC value of a code (codes.Code); OK is 0 and never an error. */
  function GrpcNumber(c: Code): (n: int)
    ensures 1 <= n <= 16
  {
    match c
    case Canceled => 1
    case Unknown => 2
    case InvalidArgument => 3
    case DeadlineExceeded => 4
    case NotFound => 5
    case AlreadyExists => 6
    case PermissionDenied => 7
    case ResourceExhausted => 8
    case FailedPrecondition => 9
    case Aborted => 10
    case OutOfRange => 11
    case Unimplemented => 12
    case Internal => 13
    case Unavailable => 14
    case DataLoss => 15
    case Unauthenticated => 16
  }

  /** The CamelCase name grpc-go prints for a code inside a status error's text. */
  function GrpcName(c: Code): string {
    match c
    case Canceled => "Canceled"
    case Unknown => "Unknown"
    case InvalidArgument => "InvalidArgument"
    case DeadlineExceeded => "DeadlineExceeded"
    case NotFound => "NotFound"
    case AlreadyExists => "AlreadyExists"
    case PermissionDenied => "PermissionDenied"
    case ResourceExhausted => "ResourceExhausted"
    case FailedPrecondition => "FailedPrecondition"
    case Aborted => "Aborted"
    case OutOfRange => "OutOfRange"
    case Unimplemented => "Unimplemented"
    case Internal => "Internal"
    case Unavailable => "Unavailable"
    case DataLoss => "DataLoss"
    case Unauthenticated => "Unauthenticated"
  }

  datatype Error =
    | ConnectError(code: Code, message: string)  // *connect.Error
    | StatusError(code: Code, message: string)   // a gRPC status error (status.Error)
    | HttpError(status: int, message: string)    // *echo.HTTPError with a string message
    | PlainError(text: string)                   // any other Go error value
  {
    /**
     * err.Error() for the kinds whose text does not depend on the Connect
     * library's spelling of code names: echo formats "code=%d, message=%v".
     */
    function Text(): string
      requires !ConnectError?
    {
      match this
      case PlainError(t) => t
      case StatusError(c, m) => "rpc error: code = " + GrpcName(c) + " desc = " + m
      case HttpError(s, m) => "code=" + IntToString(s) + ", message=" + m
    }
  }

  /** errors.Wrap(err, msg): the message, a colon and the wrapped error's text. */
  function Wrap(err: Error, msg: string): (r: Error)
    ensures r.PlainError? && |r.text| >= |msg| && r.text[..|msg|] == msg
  {
    PlainError(msg + (if !err.ConnectError? then ": " + err.Text() else ""))
  }

  /** database/sql's sentinel for "no rows in result set". */
  const ErrNoRows: Error := PlainError("sql: no rows in result set")
}
