/**
 * A sequential stand-in for Go's http.ResponseWriter: a header map, the
 * status once it is sent, and the body bytes. As in net/http, the first
 * WriteHeader wins and a Write before any WriteHeader sends 200.
 */
module HttpWriters {
  import opened Wrappers

  type Bytes = seq<bv8>

  const ContentType: string := "Content-Type"
  const ApplicationJson: string := "application/json"

  /** http.Header.Get for single-valued headers: "" when absent. */
  function HeaderGet(header: map<string, string>, key: string): string {
    if key in header then header[key] else ""
  }

  /** One call a handler makes on the writer it is given. */
  datatype WriterCall =
    | SetHeaderCall(key: string, value: string)
    | WriteHeaderCall(code: int)
    | WriteCall(data: Bytes)

  datatype WriterState = WriterState(header: map<string, string>, status: Option<int>, body: Bytes)

  function SentStatus(status: Option<int>, code: int): (r: Option<int>)
    ensures r.Some?
    ensures status.Some? ==> r == status
    ensures status.None? ==> r == Some(code)
  {
    if status.Some? then status else Some(code)
  }

  function Step(s: WriterState, call: WriterCall): WriterState {
    match call
    case SetHeaderCall(k, v) => s.(header := s.header[k := v])
    case WriteHeaderCall(code) => s.(status := SentStatus(s.status, code))
    case WriteCall(data) => s.(status := SentStatus(s.status, 200), body := s.body + data)
  }

  /** The writer's state after a sequence of calls, folded from the left. */
  function Run(s: WriterState, calls: seq<WriterCall>): WriterState
    decreases |calls|
  {
    if |calls| == 0 then s else Step(Run(s, calls[..|calls| - 1]), calls[|calls| - 1])
  }

  /** The bytes written are the writes' data in order, whatever the other calls. */
  function Written(calls: seq<WriterCall>): Bytes
    decreases |calls|
  {
    if |calls| == 0 then []
    else Written(calls[..|calls| - 1]) + (if calls[|calls| - 1].WriteCall? then calls[|calls| - 1].data else [])
  }

  lemma {:induction false} RunAppendsWrittenBytes(s: WriterState, calls: seq<WriterCall>)
    ensures Run(s, calls).body == s.body + Written(calls)
    decreases |calls|
  {
    if |calls| > 0 {
      RunAppendsWrittenBytes(s, calls[..|calls| - 1]);
    }
  }

  /** Once a status is sent, no later call changes it. */
  lemma {:induction false} SentStatusIsFinal(s: WriterState, calls: seq<WriterCall>)
    requires s.status.Some?
    ensures Run(s, calls).status == s.status
    decreases |calls|
  {
    if |calls| > 0 {
      SentStatusIsFinal(s, calls[..|calls| - 1]);
    }
  }

  class HttpWriter {
    var header: map<string, string>
    var status: Option<int>
    var body: Bytes

    constructor ()
      ensures header == map[] && status == None && body == []
    {
      header := map[];
      status := None;
      body := [];
    }

    function State(): WriterState
      reads this
    {
      WriterState(header, status, body)
    }

    /** w.Header().Set(key, value) */
    method SetHeader(key: string, value: string)
      modifies this
      ensures State() == Step(old(State()), SetHeaderCall(key, value))
      ensures header == old(header)[key := value] && status == old(status) && body == old(body)
    {
      header := header[key := value];
    }

    /** w.WriteHeader(code); a superfluous call is ignored. */
    method WriteHeader(code: int)
      modifies this
      ensures State() == Step(old(State()), WriteHeaderCall(code))
      ensures header == old(header) && body == old(body)
      ensures old(status).Some? ==> status == old(status)
      ensures old(status).None? ==> status == Some(code)
    {
      status := SentStatus(status, code);
    }

    /** w.Write(data); sends 200 first when no status was sent. */
    method Write(data: Bytes) returns (n: nat)
      modifies this
      ensures State() == Step(old(State()), WriteCall(data))
      ensures n == |data|
      ensures header == old(header) && body == old(body) + data
      ensures status == SentStatus(old(status), 200)
    {
      status := SentStatus(status, 200);
      body := body + data;
      n := |data|;
    }

    /** Performs a handler's calls on this writer, one at a time. */
    method Perform(calls: seq<WriterCall>)
      modifies this
      ensures State() == Run(old(State()), calls)
    {
      var i := 0;
      while i < |calls|
        invariant 0 <= i <= |calls|
        invariant State() == Run(old(State()), calls[..i])
      {
        assert calls[..i + 1][..i] == calls[..i];
        match calls[i] {
          case SetHeaderCall(k, v) => SetHeader(k, v);
          case WriteHeaderCall(code) => WriteHeader(code);
          case WriteCall(data) => var _ := Write(data);
        }
        i := i + 1;
      }
      assert calls[..i] == calls;
    }
  }
}
