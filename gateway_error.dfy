/**
 * server/middleware/gateway_error.go: the gRPC-gateway error handler, which
 * answers every error with a JSON error envelope, and the response wrapper,
 * which buffers what the gateway handler writes and re-emits it in the
 * envelope format.
 *
 * JSON encoding is not visible here and is a parameter: `encode` is
 * json.NewEncoder(w).Encode (the bytes it writes), `decodeEnvelope` is
 * json.Unmarshal into a UnifiedResponse and `decodeAny` is json.Unmarshal
 * into interface{}; None is an unmarshalling error.
 */
module GatewayError {
  import opened Wrappers
  import opened Errors
  import opened Response
  import opened HttpWriters

  datatype JsonCodec = JsonCodec(
    encode: UnifiedResponse -> Bytes,
    decodeEnvelope: Bytes -> Option<UnifiedResponse>,
    decodeAny: Bytes -> Option<Json>)

  /** The HTTP status of both error kinds: four codes have their own, the rest are 500. */
  function GatewayHttpStatus(c: Code): (status: int)
    ensures status in {400, 401, 404, 409, 500}
    ensures status == 401 <==> c == Unauthenticated
    ensures status == 400 <==> c == InvalidArgument
    ensures status == 404 <==> c == NotFound
    ensures status == 409 <==> c == AlreadyExists
  {
    match c
    case Unauthenticated => 401
    case InvalidArgument => 400
    case NotFound => 404
    case AlreadyExists => 409
    case _ => 500
  }

  datatype Mapping = Mapping(status: int, state: int, message: string)

  /**
   * The handler's choice of HTTP status, envelope state and message. A gRPC
   * status error is recognised first; errors of any other kind (echo's
   * HTTPError included) fall to the last branch.
   */
  function GatewayMapping(err: Error, codeName: Code -> string): (m: Mapping)
    ensures 1 <= m.state <= 16
    ensures err.StatusError? ==> m == Mapping(GatewayHttpStatus(err.code), GrpcNumber(err.code), err.message)
    ensures err.ConnectError? ==>
      m == Mapping(GatewayHttpStatus(err.code), ConnectCodeToState(codeName(err.code)), err.message)
    ensures !err.StatusError? && !err.ConnectError? ==> m == Mapping(500, 2, err.Text())
  {
    match err
    case StatusError(c, msg) => Mapping(GatewayHttpStatus(c), GrpcNumber(c), msg)
    case ConnectError(c, msg) => Mapping(GatewayHttpStatus(c), ConnectCodeToState(codeName(c)), msg)
    case _ => Mapping(500, 2, err.Text())
  }

  /** With the upper-case Connect names, a gRPC error and a Connect error of the same code answer alike. */
  lemma GrpcAndConnectAgree(c: Code, message: string, codeName: Code -> string)
    requires codeName(c) == UpperName(c)
    ensures GatewayMapping(StatusError(c, message), codeName) == GatewayMapping(ConnectError(c, message), codeName)
  {
    StateIsGrpcNumber(c);
  }

  /** The gateway and the echo middleware give a Connect error the same state; their HTTP statuses agree on the four mapped codes. */
  lemma GatewayAgreesWithUnified(err: Error, committed: bool, size: nat, codeName: Code -> string)
    requires err.ConnectError?
    ensures var m := GatewayMapping(err, codeName);
      var o := UnifiedOutcome(Some(err), committed, size, codeName);
      m.state == o.write.value.1.state && m.message == o.write.value.1.message &&
      (err.code in {Unauthenticated, InvalidArgument, NotFound, AlreadyExists} ==> m.status == o.write.value.0)
  {
    if err.code in {Unauthenticated, InvalidArgument, NotFound, AlreadyExists} {
      assert err.code == Unauthenticated || err.code == InvalidArgument || err.code == NotFound || err.code == AlreadyExists;
    }
  }

  function ErrorEnvelope(err: Error, codeName: Code -> string): UnifiedResponse {
    var m := GatewayMapping(err, codeName);
    NewErrorResponse(m.state, m.message)
  }

  /** The calls the error handler makes on its writer. */
  function ErrorHandlerCalls(err: Error, codeName: Code -> string, codec: JsonCodec): seq<WriterCall> {
    [SetHeaderCall(ContentType, ApplicationJson),
     WriteHeaderCall(GatewayMapping(err, codeName).status),
     WriteCall(codec.encode(ErrorEnvelope(err, codeName)))]
  }

  lemma RunThree(s: WriterState, a: WriterCall, b: WriterCall, c: WriterCall)
    ensures Run(s, [a, b, c]) == Step(Step(Step(s, a), b), c)
  {
    assert [a, b, c][..2] == [a, b];
    assert [a, b][..1] == [a];
    assert [a][..0] == [];
    assert Run(s, [a]) == Step(s, a);
    assert Run(s, [a, b]) == Step(Run(s, [a]), b);
  }

  lemma RunOne(s: WriterState, a: WriterCall)
    ensures Run(s, [a]) == Step(s, a)
  {
    assert [a][..0] == [];
  }

  /** NewGatewayErrorHandler's handler, writing to `w`. */
  method GatewayErrorHandler(w: HttpWriter, err: Error, codeName: Code -> string, codec: JsonCodec)
    modifies w
    ensures w.State() == Run(old(w.State()), ErrorHandlerCalls(err, codeName, codec))
    ensures w.header == old(w.header)[ContentType := ApplicationJson]
    ensures w.status == SentStatus(old(w.status), GatewayMapping(err, codeName).status)
    ensures w.body == old(w.body) + codec.encode(ErrorEnvelope(err, codeName))
    ensures ErrorEnvelope(err, codeName).data == JNull && ErrorEnvelope(err, codeName).state != 0
  {
    var m := GatewayMapping(err, codeName);
    w.SetHeader(ContentType, ApplicationJson);
    w.WriteHeader(m.status);
    var unified := NewErrorResponse(m.state, m.message);
    var _ := w.Write(codec.encode(unified));
    RunThree(old(w.State()), SetHeaderCall(ContentType, ApplicationJson), WriteHeaderCall(m.status),
             WriteCall(codec.encode(unified)));
  }

  /** What the buffering writer has seen: the shared header map, the buffer and the last status. */
  datatype CaptureState = CaptureState(header: map<string, string>, buffer: Bytes, statusCode: int)

  function CaptureStep(s: CaptureState, call: WriterCall): CaptureState {
    match call
    case SetHeaderCall(k, v) => s.(header := s.header[k := v])
    case WriteHeaderCall(code) => s.(statusCode := code)
    case WriteCall(data) => s.(buffer := s.buffer + data)
  }

  function Replay(s: CaptureState, calls: seq<WriterCall>): CaptureState
    decreases |calls|
  {
    if |calls| == 0 then s else CaptureStep(Replay(s, calls[..|calls| - 1]), calls[|calls| - 1])
  }

  /** The buffer holds exactly the bytes a real writer would have received. */
  lemma {:induction false} CaptureBufferIsWritten(s: CaptureState, calls: seq<WriterCall>)
    ensures Replay(s, calls).buffer == s.buffer + Written(calls)
    decreases |calls|
  {
    if |calls| > 0 {
      CaptureBufferIsWritten(s, calls[..|calls| - 1]);
    }
  }

  /** The header map is shared, so the capture and a real writer end with the same headers. */
  lemma {:induction false} CaptureSharesHeaders(s: CaptureState, w: WriterState, calls: seq<WriterCall>)
    requires s.header == w.header
    ensures Replay(s, calls).header == Run(w, calls).header
    decreases |calls|
  {
    if |calls| > 0 {
      CaptureSharesHeaders(s, w, calls[..|calls| - 1]);
    }
  }

  /** responseWriter: WriteHeader and Write only record; Header is the original writer's. */
  class CaptureWriter {
    const original: HttpWriter
    var buffer: Bytes
    var statusCode: int

    constructor (w: HttpWriter)
      ensures original == w && buffer == [] && statusCode == 200
    {
      original := w;
      buffer := [];
      statusCode := 200;
    }

    function State(): CaptureState
      reads this, original
    {
      CaptureState(original.header, buffer, statusCode)
    }

    method SetHeader(key: string, value: string)
      modifies original
      ensures original.State() == Step(old(original.State()), SetHeaderCall(key, value))
    {
      original.SetHeader(key, value);
    }

    method WriteHeader(code: int)
      modifies this
      ensures statusCode == code && buffer == old(buffer)
    {
      statusCode := code;
    }

    method Write(data: Bytes) returns (n: nat)
      modifies this
      ensures buffer == old(buffer) + data && statusCode == old(statusCode) && n == |data|
    {
      buffer := buffer + data;
      n := |data|;
    }
  }

  /** What the wrapper writes to the original writer once the handler is done. */
  function WrapperCalls(c: CaptureState, codec: JsonCodec): (calls: seq<WriterCall>)
    ensures |c.buffer| == 0 <==> calls == []
  {
    if |c.buffer| == 0 then []
    else if HeaderGet(c.header, ContentType) == ApplicationJson then
      var envelope := codec.decodeEnvelope(c.buffer);
      if envelope.Some? && envelope.value.state != 0 then
        [SetHeaderCall(ContentType, ApplicationJson), WriteHeaderCall(c.statusCode), WriteCall(c.buffer)]
      else
        var data := codec.decodeAny(c.buffer);
        if data.Some? then
          [SetHeaderCall(ContentType, ApplicationJson), WriteHeaderCall(c.statusCode),
           WriteCall(codec.encode(NewSuccessResponse(data.value)))]
        else
          [SetHeaderCall(ContentType, ApplicationJson), WriteHeaderCall(c.statusCode), WriteCall(c.buffer)]
    else [WriteCall(c.buffer)]
  }

  /**
   * NewGatewayResponseWrapper's handler: `handler` is what the wrapped
   * gateway handler does with the writer it is given.
   */
  method GatewayResponseWrapper(w: HttpWriter, handler: seq<WriterCall>, codec: JsonCodec)
    modifies w
    ensures var c := Replay(CaptureState(old(w.header), [], 200), handler);
      w.State() == Run(WriterState(c.header, old(w.status), old(w.body)), WrapperCalls(c, codec))
  {
    var custom := new CaptureWriter(w);
    ghost var start := custom.State();
    var i := 0;
    while i < |handler|
      invariant 0 <= i <= |handler|
      invariant custom.original == w
      invariant custom.State() == Replay(start, handler[..i])
      invariant w.status == old(w.status) && w.body == old(w.body)
    {
      assert handler[..i + 1][..i] == handler[..i];
      match handler[i] {
        case SetHeaderCall(k, v) => custom.SetHeader(k, v);
        case WriteHeaderCall(code) => custom.WriteHeader(code);
        case WriteCall(data) => var _ := custom.Write(data);
      }
      i := i + 1;
    }
    assert handler[..i] == handler;
    ghost var c := custom.State();
    ghost var s := w.State();
    assert s == WriterState(c.header, old(w.status), old(w.body));
    if |custom.buffer| > 0 {
      if HeaderGet(w.header, ContentType) == ApplicationJson {
        var originalResponse := custom.buffer;
        var unified := codec.decodeEnvelope(originalResponse);
        if unified.Some? && unified.value.state != 0 {
          w.SetHeader(ContentType, ApplicationJson);
          w.WriteHeader(custom.statusCode);
          var _ := w.Write(originalResponse);
          RunThree(s, SetHeaderCall(ContentType, ApplicationJson), WriteHeaderCall(c.statusCode), WriteCall(c.buffer));
          return;
        }
        w.SetHeader(ContentType, ApplicationJson);
        w.WriteHeader(custom.statusCode);
        var data := codec.decodeAny(originalResponse);
        if data.Some? {
          var _ := w.Write(codec.encode(NewSuccessResponse(data.value)));
          RunThree(s, SetHeaderCall(ContentType, ApplicationJson), WriteHeaderCall(c.statusCode),
                   WriteCall(codec.encode(NewSuccessResponse(data.value))));
        } else {
          var _ := w.Write(originalResponse);
          RunThree(s, SetHeaderCall(ContentType, ApplicationJson), WriteHeaderCall(c.statusCode), WriteCall(c.buffer));
        }
      } else {
        var _ := w.Write(custom.buffer);
        RunOne(s, WriteCall(c.buffer));
      }
    }
  }

  function InitialCapture(header: map<string, string>): CaptureState {
    CaptureState(header, [], 200)
  }

  /** A handler that writes no bytes leaves the original writer's status and body untouched. */
  lemma EmptyResponseWritesNothing(header: map<string, string>, handler: seq<WriterCall>, codec: JsonCodec)
    requires Written(handler) == []
    ensures WrapperCalls(Replay(InitialCapture(header), handler), codec) == []
  {
    CaptureBufferIsWritten(InitialCapture(header), handler);
  }

  /**
   * The error handler's output passes through the wrapper unchanged: same
   * status, same bytes, as long as the envelope decodes back to itself.
   */
  lemma ErrorEnvelopePassesThrough(header: map<string, string>, err: Error, codeName: Code -> string, codec: JsonCodec)
    requires codec.decodeEnvelope(codec.encode(ErrorEnvelope(err, codeName))) == Some(ErrorEnvelope(err, codeName))
    requires |codec.encode(ErrorEnvelope(err, codeName))| > 0
    ensures WrapperCalls(Replay(InitialCapture(header), ErrorHandlerCalls(err, codeName, codec)), codec)
         == ErrorHandlerCalls(err, codeName, codec)
  {
    var calls := ErrorHandlerCalls(err, codeName, codec);
    var s0 := InitialCapture(header);
    assert calls[..2][..1] == calls[..1];
    assert calls[..1][..0] == [];
    assert Replay(s0, calls[..1]) == CaptureStep(s0, calls[0]);
    assert Replay(s0, calls[..2]) == CaptureStep(Replay(s0, calls[..1]), calls[1]);
    assert Replay(s0, calls) == CaptureStep(Replay(s0, calls[..2]), calls[2]);
    var c := Replay(s0, calls);
    assert c.header == header[ContentType := ApplicationJson];
    assert c.statusCode == GatewayMapping(err, codeName).status;
    assert c.buffer == codec.encode(ErrorEnvelope(err, codeName));
  }

  /** The JSON object a UnifiedResponse encodes to. */
  function EnvelopeJson(u: UnifiedResponse): Json {
    JObject(map["state" := JNumber(u.state), "message" := JString(u.message), "data" := u.data])
  }

  /**
   * A success envelope written by the gateway handler is not recognised as
   * already unified (its state is 0) and is wrapped a second time.
   */
  lemma SuccessEnvelopeIsWrappedAgain(c: CaptureState, codec: JsonCodec, u: UnifiedResponse)
    requires |c.buffer| > 0 && HeaderGet(c.header, ContentType) == ApplicationJson
    requires codec.decodeEnvelope(c.buffer) == Some(u) && u.state == 0
    requires codec.decodeAny(c.buffer) == Some(EnvelopeJson(u))
    ensures WrapperCalls(c, codec)[2] == WriteCall(codec.encode(NewSuccessResponse(EnvelopeJson(u))))
    ensures NewSuccessResponse(EnvelopeJson(u)) != u
  {
    assert EnvelopeJson(u) != u.data by {
      JsonIsNotItsOwnField(u);
    }
  }

  lemma JsonIsNotItsOwnField(u: UnifiedResponse)
    ensures EnvelopeJson(u) != u.data
  {
    var m := map["state" := JNumber(u.state), "message" := JString(u.message), "data" := u.data];
    assert "data" in m && m["data"] == u.data;
    assert u.data < EnvelopeJson(u);
  }

  /**
   * A non-JSON response is written back without its captured status: the
   * client sees 200 (or whatever status was already sent) even when the
   * handler chose another.
   */
  lemma NonJsonLosesCapturedStatus(c: CaptureState, codec: JsonCodec, body: Bytes)
    requires |c.buffer| > 0 && HeaderGet(c.header, ContentType) != ApplicationJson
    ensures Run(WriterState(c.header, None, body), WrapperCalls(c, codec)).status == Some(200)
    ensures Run(WriterState(c.header, None, body), WrapperCalls(c, codec)).body == body + c.buffer
  {
    RunOne(WriterState(c.header, None, body), WriteCall(c.buffer));
  }
}
