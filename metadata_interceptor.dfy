/**
 * server/interceptor/metadata_interceptor.go: the Connect unary interceptor
 * that copies four request headers into fresh incoming gRPC metadata and,
 * on success, marks the response as not cacheable.
 */
module MetadataInterceptor {
  import opened Wrappers
  import opened Errors
  import opened Strings
  import opened Claims

  type Metadata = map<string, seq<string>>

  /** The copied headers: (request header name, metadata key). */
  const CopiedHeaders: seq<(string, string)> :=
    [("User-Agent", "user-agent"), ("X-Forwarded-For", "x-forwarded-for"), ("X-Real-Ip", "x-real-ip"), ("Cookie", "cookie")]

  /** md holds exactly the non-empty copied headers, each as a single value. */
  predicate CopiesHeaders(header: map<string, seq<string>>, md: Metadata) {
    (forall key :: key in md ==> exists i :: 0 <= i < |CopiedHeaders| && CopiedHeaders[i].1 == key) &&
    (forall i :: 0 <= i < |CopiedHeaders| ==>
      var value := FirstValue(header, CopiedHeaders[i].0);
      (CopiedHeaders[i].1 in md <==> value != "") &&
      (value != "" ==> md[CopiedHeaders[i].1] == [value]))
  }

  /** Only one metadata map copies a given request header. */
  lemma CopiesHeadersDeterminesMetadata(header: map<string, seq<string>>, md1: Metadata, md2: Metadata)
    requires CopiesHeaders(header, md1) && CopiesHeaders(header, md2)
    ensures md1 == md2
  {
    forall key | key in md1
      ensures key in md2 && md1[key] == md2[key]
    {
      var i :| 0 <= i < |CopiedHeaders| && CopiedHeaders[i].1 == key;
    }
    forall key | key in md2
      ensures key in md1
    {
      var i :| 0 <= i < |CopiedHeaders| && CopiedHeaders[i].1 == key;
    }
  }

  /** The metadata the interceptor builds with md.Set, one header at a time. */
  method BuildMetadata(header: map<string, seq<string>>) returns (md: Metadata)
    ensures CopiesHeaders(header, md)
  {
    md := map[];
    var ua := FirstValue(header, "User-Agent");
    if ua != "" {
      md := md["user-agent" := [ua]];
    }
    var xff := FirstValue(header, "X-Forwarded-For");
    if xff != "" {
      md := md["x-forwarded-for" := [xff]];
    }
    var xri := FirstValue(header, "X-Real-Ip");
    if xri != "" {
      md := md["x-real-ip" := [xri]];
    }
    var cookie := FirstValue(header, "Cookie");
    if cookie != "" {
      md := md["cookie" := [cookie]];
    }
    assert CopiedHeaders[0].1 == "user-agent" && CopiedHeaders[1].1 == "x-forwarded-for";
    assert CopiedHeaders[2].1 == "x-real-ip" && CopiedHeaders[3].1 == "cookie";
  }

  /** The metadata the handler sees carries none of the incoming metadata, e.g. no "authorization" key. */
  lemma IncomingMetadataIsReplaced(header: map<string, seq<string>>, md: Metadata, key: string)
    requires CopiesHeaders(header, md)
    requires key !in {"user-agent", "x-forwarded-for", "x-real-ip", "cookie"}
    ensures key !in md
  {
  }

  const NoCacheHeaders: map<string, string> :=
    map["Cache-Control" := "no-cache, no-store, must-revalidate", "Pragma" := "no-cache", "Expires" := "0"]

  /** A Connect response; its header map may be nil. */
  class ConnectResponse {
    var header: Option<map<string, string>>

    constructor (header: Option<map<string, string>>)
      ensures this.header == header
    {
      this.header := header;
    }
  }

  /**
   * WrapUnary's handler. The inner handler is seen through what it returns
   * (`resp`, `err`); `nextCtx` is the context it is called with.
   */
  method WrapUnary(ctx: Context, header: map<string, seq<string>>, resp: Option<ConnectResponse>, err: Option<Error>)
    returns (nextCtx: Context, outResp: Option<ConnectResponse>, outErr: Option<Error>)
    modifies if resp.Some? then {resp.value} else {}
    ensures nextCtx.values == ctx.values && nextCtx.metadata.Some? && CopiesHeaders(header, nextCtx.metadata.value)
    ensures outResp == resp && outErr == err
    ensures resp.Some? && err.None? && old(resp.value.header).Some? ==>
      resp.value.header == Some(old(resp.value.header).value + NoCacheHeaders)
    ensures resp.Some? && (err.Some? || old(resp.value.header).None?) ==> resp.value.header == old(resp.value.header)
  {
    var md := BuildMetadata(header);
    nextCtx := ctx.(metadata := Some(md));
    if err.None? && resp.Some? {
      var h := resp.value.header;
      if h.Some? {
        var m := h.value;
        m := m["Cache-Control" := "no-cache, no-store, must-revalidate"];
        m := m["Pragma" := "no-cache"];
        m := m["Expires" := "0"];
        assert m.Keys == h.value.Keys + NoCacheHeaders.Keys;
        assert m == h.value + NoCacheHeaders;
        resp.value.header := Some(m);
      }
    }
    return nextCtx, resp, err;
  }
}
