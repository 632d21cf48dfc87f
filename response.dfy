/**
 * server/middleware/response.go: the unified JSON envelope
 * {state, message, data}, the Connect code tables, and the echo middleware
 * that turns a handler's error (or empty success) into an envelope.
 */
module Response {
  import opened Wrappers
  import opened Errors

  /** A decoded JSON value (encoding/json into interface{}). */
  datatype Json =
    | JNull
    | JBool(b: bool)
    | JNumber(n: int)
    | JString(s: string)
    | JArray(items: seq<Json>)
    | JObject(fields: map<string, Json>)

  /** UnifiedResponse; a nil Data is JNull. */
  datatype UnifiedResponse = UnifiedResponse(state: int, message: string, data: Json)

  /** A response a middleware writes itself through c.JSON: status and envelope. */
  datatype Reply = Reply(status: int, envelope: UnifiedResponse)

  function NewSuccessResponse(data: Json): (r: UnifiedResponse)
    ensures r.state == 0 && r.message == "success" && r.data == data
  {
    UnifiedResponse(0, "success", data)
  }

  function NewErrorResponse(state: int, message: string): (r: UnifiedResponse)
    ensures r.state == state && r.message == message && r.data == JNull
  {
    UnifiedResponse(state, message, JNull)
  }

  /** The upper-case code names connectCodeToState recognises. */
  function UpperName(c: Code): string {
    match c
    case Canceled => "CANCELLED"
    case Unknown => "UNKNOWN"
    case InvalidArgument => "INVALID_ARGUMENT"
    case DeadlineExceeded => "DEADLINE_EXCEEDED"
    case NotFound => "NOT_FOUND"
    case AlreadyExists => "ALREADY_EXISTS"
    case PermissionDenied => "PERMISSION_DENIED"
    case ResourceExhausted => "RESOURCE_EXHAUSTED"
    case FailedPrecondition => "FAILED_PRECONDITION"
    case Aborted => "ABORTED"
    case OutOfRange => "OUT_OF_RANGE"
    case Unimplemented => "UNIMPLEMENTED"
    case Internal => "INTERNAL"
    case Unavailable => "UNAVAILABLE"
    case DataLoss => "DATA_LOSS"
    case Unauthenticated => "UNAUTHENTICATED"
  }

  /** The inverse of UpperName: the code a table name spells, if any. */
  function CodeOfName(name: string): (r: Option<Code>)
    ensures r.Some? ==> UpperName(r.value) == name
  {
    match name
    case "CANCELLED" => Some(Canceled)
    case "UNKNOWN" => Some(Unknown)
    case "INVALID_ARGUMENT" => Some(InvalidArgument)
    case "DEADLINE_EXCEEDED" => Some(DeadlineExceeded)
    case "NOT_FOUND" => Some(NotFound)
    case "ALREADY_EXISTS" => Some(AlreadyExists)
    case "PERMISSION_DENIED" => Some(PermissionDenied)
    case "UNAUTHENTICATED" => Some(Unauthenticated)
    case "RESOURCE_EXHAUSTED" => Some(ResourceExhausted)
    case "FAILED_PRECONDITION" => Some(FailedPrecondition)
    case "ABORTED" => Some(Aborted)
    case "OUT_OF_RANGE" => Some(OutOfRange)
    case "UNIMPLEMENTED" => Some(Unimplemented)
    case "INTERNAL" => Some(Internal)
    case "UNAVAILABLE" => Some(Unavailable)
    case "DATA_LOSS" => Some(DataLoss)
    case _ => None
  }

  lemma NameRoundTrip(c: Code)
    ensures CodeOfName(UpperName(c)) == Some(c)
  {
  }

  predicate IsUpperName(name: string) {
    CodeOfName(name).Some?
  }

  /** connectCodeToState: the sixteen names to their fixed states, anything else to 2. */
  function ConnectCodeToState(name: string): (state: int)
    ensures 1 <= state <= 16
    ensures !IsUpperName(name) ==> state == 2
    ensures IsUpperName(name) ==> state == GrpcNumber(CodeOfName(name).value)
  {
    match name
    case "CANCELLED" => 1
    case "UNKNOWN" => 2
    case "INVALID_ARGUMENT" => 3
    case "DEADLINE_EXCEEDED" => 4
    case "NOT_FOUND" => 5
    case "ALREADY_EXISTS" => 6
    case "PERMISSION_DENIED" => 7
    case "UNAUTHENTICATED" => 16
    case "RESOURCE_EXHAUSTED" => 8
    case "FAILED_PRECONDITION" => 9
    case "ABORTED" => 10
    case "OUT_OF_RANGE" => 11
    case "UNIMPLEMENTED" => 12
    case "INTERNAL" => 13
    case "UNAVAILABLE" => 14
    case "DATA_LOSS" => 15
    case _ => 2
  }

  /** The state of a recognised name is the code's gRPC number, so the table is injective on the names. */
  lemma StateIsGrpcNumber(c: Code)
    ensures ConnectCodeToState(UpperName(c)) == GrpcNumber(c)
  {
    NameRoundTrip(c);
  }

  lemma StateTableInjective(a: Code, b: Code)
    requires ConnectCodeToState(UpperName(a)) == ConnectCodeToState(UpperName(b))
    ensures a == b
  {
    StateIsGrpcNumber(a);
    StateIsGrpcNumber(b);
  }

  /** The HTTP status the unified middleware answers for a Connect code. */
  function ConnectHttpStatus(c: Code): (status: int)
    ensures 400 <= status <= 599
    ensures c == Unauthenticated <==> status == 401
    ensures status == 400 <==> c in {InvalidArgument, FailedPrecondition, OutOfRange}
    ensures status == 409 <==> c in {AlreadyExists, Aborted}
  {
    match c
    case Canceled => 408
    case Unknown => 500
    case InvalidArgument => 400
    case DeadlineExceeded => 408
    case NotFound => 404
    case AlreadyExists => 409
    case PermissionDenied => 403
    case Unauthenticated => 401
    case ResourceExhausted => 429
    case FailedPrecondition => 400
    case Aborted => 409
    case OutOfRange => 400
    case Unimplemented => 501
    case Internal => 500
    case Unavailable => 503
    case DataLoss => 500
  }

  /** What the middleware writes (c.JSON) and what it returns. */
  datatype Outcome = Outcome(write: Option<(int, UnifiedResponse)>, returned: Option<Error>)

  /**
   * UnifiedResponseMiddleware after next returned `err`, for a response that
   * is `committed` with `size` bytes written. `codeName` is Connect's
   * Code.String(). The write's own error is not modelled (c.JSON is taken to
   * succeed).
   */
  function UnifiedOutcome(err: Option<Error>, committed: bool, size: nat, codeName: Code -> string): (o: Outcome)
    ensures err.None? ==> o.returned == None
    ensures err.None? ==> (o.write.Some? <==> !committed && size == 0)
    ensures err.None? && o.write.Some? ==> o.write.value == (200, NewSuccessResponse(JNull))
    ensures err.Some? ==> o.write.Some? && o.write.value.1.data == JNull
    ensures err.Some? && err.value.HttpError? ==>
      o == Outcome(Some((err.value.status, NewErrorResponse(err.value.status, err.value.message))), err)
    ensures err.Some? && err.value.ConnectError? ==>
      o == Outcome(Some((ConnectHttpStatus(err.value.code),
                         NewErrorResponse(ConnectCodeToState(codeName(err.value.code)), err.value.message))), None)
    ensures err.Some? && (err.value.PlainError? || err.value.StatusError?) ==>
      o == Outcome(Some((500, NewErrorResponse(2, err.value.Text()))), None)
  {
    match err
    case None =>
      if committed then Outcome(None, None)
      else if size == 0 then Outcome(Some((200, NewSuccessResponse(JNull))), None)
      else Outcome(None, None)
    case Some(e) =>
      match e
      case HttpError(status, message) => Outcome(Some((status, NewErrorResponse(status, message))), err)
      case ConnectError(code, message) =>
        Outcome(Some((ConnectHttpStatus(code), NewErrorResponse(ConnectCodeToState(codeName(code)), message))), None)
      case _ => Outcome(Some((500, NewErrorResponse(2, e.Text()))), None)
  }

  /**
   * If Connect spells its codes in anything but the upper-case table names
   * (connect-go's Code.String() gives lower-case names such as
   * "invalid_argument"), every Connect error gets state 2.
   */
  lemma UnrecognisedNamesCollapseToTwo(err: Error, committed: bool, size: nat, codeName: Code -> string)
    requires err.ConnectError? && !IsUpperName(codeName(err.code))
    ensures UnifiedOutcome(Some(err), committed, size, codeName).write.value.1.state == 2
  {
  }

  /** With the upper-case spelling, the envelope's state is the gRPC number of the code. */
  lemma UpperNamesGiveGrpcNumbers(err: Error, committed: bool, size: nat)
    requires err.ConnectError?
    ensures UnifiedOutcome(Some(err), committed, size, UpperName).write.value.1.state == GrpcNumber(err.code)
  {
    StateIsGrpcNumber(err.code);
  }
}
