/**
 * server/middleware/csrf.go: the double-submit CSRF check (the token a
 * request carries must equal its CSRF cookie), the configuration defaults,
 * and the middleware that hands out a fresh token when the cookie is absent.
 *
 * Function-valued configuration fields are Options (None is Go's nil). The
 * random bytes of GenerateCSRFToken and the clock are parameters; durations
 * and instants are nanoseconds.
 */
module Csrf {
  import opened Wrappers
  import opened Errors
  import opened Response
  import opened HttpWriters

  const CSRFTokenHeader: string := "X-CSRF-Token"
  const CSRFTokenCookie: string := "csrf_token"
  const CSRFTokenLength: nat := 32

  /** net/http's SameSite values. */
  const SameSiteLaxMode: int := 2
  const Hour: int := 3_600_000_000_000

  /** The parts of an incoming request the middleware reads. */
  datatype Request = Request(verb: string, cookies: map<string, string>, header: map<string, string>)

  datatype CsrfConfig = CsrfConfig(
    tokenLookup: Option<Request -> string>,
    cookieName: string,
    cookiePath: string,
    cookieDomain: string,
    cookieSecure: bool,
    cookieHttpOnly: bool,
    cookieSameSite: int,
    tokenExpiration: int,
    errorHandler: Option<Request -> Reply>)

  function DefaultTokenLookup(req: Request): string {
    HeaderGet(req.header, CSRFTokenHeader)
  }

  function DefaultErrorHandler(req: Request): Reply {
    Reply(403, NewErrorResponse(403, "CSRF token mismatch"))
  }

  function DefaultCSRFConfig(): CsrfConfig {
    CsrfConfig(Some(DefaultTokenLookup), CSRFTokenCookie, "/", "", false, true, SameSiteLaxMode, 24 * Hour,
               Some(DefaultErrorHandler))
  }

  /** NewCSRF's defaulting: only nil, empty or non-positive fields are replaced. */
  function CsrfDefaults(config: CsrfConfig): (r: CsrfConfig)
    ensures r.tokenLookup == (if config.tokenLookup.None? then Some(DefaultTokenLookup) else config.tokenLookup)
    ensures r.cookieName == (if config.cookieName == "" then CSRFTokenCookie else config.cookieName)
    ensures r.cookiePath == (if config.cookiePath == "" then "/" else config.cookiePath)
    ensures r.tokenExpiration == (if config.tokenExpiration <= 0 then 24 * Hour else config.tokenExpiration)
    ensures r.errorHandler == (if config.errorHandler.None? then Some(DefaultErrorHandler) else config.errorHandler)
    ensures r.cookieDomain == config.cookieDomain && r.cookieSecure == config.cookieSecure
    ensures r.cookieHttpOnly == config.cookieHttpOnly && r.cookieSameSite == config.cookieSameSite
  {
    var c := config;
    var c := if c.tokenLookup.None? then c.(tokenLookup := DefaultCSRFConfig().tokenLookup) else c;
    var c := if c.cookieName == "" then c.(cookieName := DefaultCSRFConfig().cookieName) else c;
    var c := if c.cookiePath == "" then c.(cookiePath := DefaultCSRFConfig().cookiePath) else c;
    var c := if c.tokenExpiration <= 0 then c.(tokenExpiration := DefaultCSRFConfig().tokenExpiration) else c;
    if c.errorHandler.None? then c.(errorHandler := DefaultCSRFConfig().errorHandler) else c
  }

  predicate Defaulted(c: CsrfConfig) {
    c.tokenLookup.Some? && c.cookieName != "" && c.cookiePath != "" && c.tokenExpiration > 0 && c.errorHandler.Some?
  }

  /** Defaulting fills every defaulted field, leaves a complete configuration alone, and so is idempotent. */
  lemma CsrfDefaultsIdempotent(config: CsrfConfig)
    ensures Defaulted(CsrfDefaults(config))
    ensures Defaulted(config) ==> CsrfDefaults(config) == config
    ensures CsrfDefaults(CsrfDefaults(config)) == CsrfDefaults(config)
  {
  }

  /** The defaults are already complete. */
  lemma DefaultConfigIsComplete()
    ensures Defaulted(DefaultCSRFConfig()) && CsrfDefaults(DefaultCSRFConfig()) == DefaultCSRFConfig()
  {
  }

  /** What the middleware does with a request. */
  datatype Outcome = CallNext | Rejected(reply: Reply)

  predicate IsSafeMethod(verb: string) {
    verb == "GET" || verb == "HEAD" || verb == "OPTIONS"
  }

  /** The request handler NewCSRF returns, for the configuration it was given. */
  function CsrfCheck(config: CsrfConfig, req: Request): (o: Outcome)
    ensures o.Rejected? ==> o.reply == CsrfDefaults(config).errorHandler.value(req)
  {
    var c := CsrfDefaults(config);
    if IsSafeMethod(req.verb) then CallNext
    else if c.cookieName !in req.cookies then Rejected(c.errorHandler.value(req))
    else
      var token := c.tokenLookup.value(req);
      if token == "" then Rejected(c.errorHandler.value(req))
      else if token != req.cookies[c.cookieName] then Rejected(c.errorHandler.value(req))
      else CallNext
  }

  /** A request reaches next exactly when it is safe or carries a non-empty token equal to its cookie. */
  lemma CsrfCheckPassesExactly(config: CsrfConfig, req: Request)
    ensures var c := CsrfDefaults(config);
      CsrfCheck(config, req).CallNext? <==>
        (IsSafeMethod(req.verb) ||
         (c.cookieName in req.cookies && c.tokenLookup.value(req) != "" &&
          c.tokenLookup.value(req) == req.cookies[c.cookieName]))
  {
  }

  /** With the default handler, a rejection is 403 with state 403. */
  lemma DefaultRejectionIs403(config: CsrfConfig, req: Request)
    requires config.errorHandler.None? && CsrfCheck(config, req).Rejected?
    ensures CsrfCheck(config, req).reply == Reply(403, NewErrorResponse(403, "CSRF token mismatch"))
  {
  }

  // base64.URLEncoding (padded, '-' and '_' in place of '+' and '/').

  function Base64UrlChar(v: bv8): char
    requires v < 64
  {
    var n := v as int;
    if n < 26 then ('A' as int + n) as char
    else if n < 52 then ('a' as int + n - 26) as char
    else if n < 62 then ('0' as int + n - 52) as char
    else if n == 62 then '-'
    else '_'
  }

  function Base64Url(b: Bytes): (s: string)
    ensures |s| == 4 * ((|b| + 2) / 3)
    decreases |b|
  {
    if |b| == 0 then ""
    else if |b| == 1 then
      [Base64UrlChar(b[0] >> 2), Base64UrlChar((b[0] & 3) << 4), '=', '=']
    else if |b| == 2 then
      [Base64UrlChar(b[0] >> 2), Base64UrlChar(((b[0] & 3) << 4) | (b[1] >> 4)), Base64UrlChar((b[1] & 15) << 2), '=']
    else
      [Base64UrlChar(b[0] >> 2), Base64UrlChar(((b[0] & 3) << 4) | (b[1] >> 4)),
       Base64UrlChar(((b[1] & 15) << 2) | (b[2] >> 6)), Base64UrlChar(b[2] & 63)] + Base64Url(b[3..])
  }

  /** GenerateCSRFToken; `random` is what rand.Read put in the 32-byte buffer, or its error. */
  function GenerateCSRFToken(random: Result<Bytes>): (r: Result<string>)
    requires random.Ok? ==> |random.value| == CSRFTokenLength
    ensures r.Ok? <==> random.Ok?
    ensures random.Err? ==> r == Err(random.error)
    ensures r.Ok? ==> |r.value| == 44
  {
    if random.Err? then Err(random.error) else Ok(Base64Url(random.value))
  }

  datatype HttpCookie = Cookie(
    name: string, value: string, path: string, domain: string,
    secure: bool, httpOnly: bool, sameSite: int, expires: int)

  /** The response side of the echo context: cookies set on it and its header map. */
  class CsrfResponse {
    var cookies: seq<HttpCookie>
    var header: map<string, string>

    constructor ()
      ensures cookies == [] && header == map[]
    {
      cookies := [];
      header := map[];
    }
  }

  /** SetCSRFToken at clock reading `now`. */
  method SetCSRFToken(resp: CsrfResponse, token: string, config: CsrfConfig, now: int)
    modifies resp
    ensures resp.cookies == old(resp.cookies) + [Cookie(config.cookieName, token, config.cookiePath, config.cookieDomain,
      config.cookieSecure, config.cookieHttpOnly, config.cookieSameSite, now + config.tokenExpiration)]
    ensures resp.header == old(resp.header)[CSRFTokenHeader := token]
    ensures resp.cookies[|resp.cookies| - 1].value == HeaderGet(resp.header, CSRFTokenHeader) == token
  {
    var cookie := Cookie(config.cookieName, token, config.cookiePath, config.cookieDomain,
      config.cookieSecure, config.cookieHttpOnly, config.cookieSameSite, now + config.tokenExpiration);
    resp.cookies := resp.cookies + [cookie];
    resp.header := resp.header[CSRFTokenHeader := token];
  }

  /** CSRFTokenMiddleware's defaulting: the cookie fields and the expiration only. */
  function TokenMiddlewareDefaults(config: CsrfConfig): (r: CsrfConfig)
    ensures r == CsrfDefaults(config).(tokenLookup := config.tokenLookup, errorHandler := config.errorHandler)
  {
    var c := if config.cookieName == "" then config.(cookieName := CSRFTokenCookie) else config;
    var c := if c.cookiePath == "" then c.(cookiePath := "/") else c;
    if c.tokenExpiration <= 0 then c.(tokenExpiration := 24 * Hour) else c
  }

  /**
   * CSRFTokenMiddleware's request handler. The result is the error returned
   * instead of calling next, or None when next is called.
   */
  method CSRFTokenMiddleware(config: CsrfConfig, req: Request, resp: CsrfResponse, random: Result<Bytes>, now: int)
    returns (failure: Option<Error>)
    requires random.Ok? ==> |random.value| == CSRFTokenLength
    modifies resp
    ensures var c := TokenMiddlewareDefaults(config);
      if c.cookieName in req.cookies then failure == None && resp.cookies == old(resp.cookies) && resp.header == old(resp.header)
      else if random.Err? then failure == Some(random.error) && resp.cookies == old(resp.cookies) && resp.header == old(resp.header)
      else (failure == None && |resp.cookies| == |old(resp.cookies)| + 1 &&
            resp.cookies[..|old(resp.cookies)|] == old(resp.cookies) &&
            resp.cookies[|old(resp.cookies)|].name == c.cookieName &&
            resp.cookies[|old(resp.cookies)|].value == HeaderGet(resp.header, CSRFTokenHeader) == Base64Url(random.value))
  {
    var c := TokenMiddlewareDefaults(config);
    if c.cookieName !in req.cookies {
      var token := GenerateCSRFToken(random);
      if token.Err? {
        return Some(token.error);
      }
      SetCSRFToken(resp, token.value, c, now);
    }
    return None;
  }

  /**
   * A token handed out by CSRFTokenMiddleware, echoed back in the cookie and
   * the X-CSRF-Token header, passes the check under the default configuration.
   */
  lemma IssuedTokenPasses(random: Bytes, verb: string, cookies: map<string, string>, header: map<string, string>)
    requires |random| == CSRFTokenLength
    ensures var token := GenerateCSRFToken(Ok(random)).value;
      var req := Request(verb, cookies[CSRFTokenCookie := token], header[CSRFTokenHeader := token]);
      CsrfCheck(DefaultCSRFConfig(), req) == CallNext
  {
  }

  /** A missing cookie rejects every unsafe request, whatever token it carries. */
  lemma MissingCookieRejects(config: CsrfConfig, req: Request)
    requires !IsSafeMethod(req.verb) && CsrfDefaults(config).cookieName !in req.cookies
    ensures CsrfCheck(config, req).Rejected?
  {
  }
}
