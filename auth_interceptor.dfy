/**
 * server/auth/interceptor.go and server/auth/gateway_middleware.go: one
 * transport-agnostic decision, and the gRPC, Connect and gateway bindings
 * that feed it and act on it.
 */
module AuthInterceptor {
  import opened Wrappers
  import opened Errors
  import opened Strings
  import opened Acl
  import opened Crypto
  import opened Claims
  import opened Authenticator

  datatype Decision = Reject | Proceed(ctx: Context)

  /** The context the handler sees: claims and their user ID, or the user and its token. */
  function BindResult(ctx: Context, result: Option<AuthResult>): (r: Context)
    ensures result.Some? && result.value.claims.Some? ==>
      GetUserClaims(r) == result.value.claims && GetUserID(r) == result.value.claims.value.userId
    ensures result.Some? && result.value.claims.None? && result.value.user.Some? ==>
      GetUserID(r) == result.value.user.value.id && GetUserClaims(r) == GetUserClaims(ctx)
    ensures result.None? || (result.value.claims.None? && result.value.user.None?) ==> r == ctx
    ensures r.metadata == ctx.metadata
  {
    match result
    case None => ctx
    case Some(res) =>
      if res.claims.Some? then
        WithValue(SetUserClaimsInContext(ctx, res.claims), UserIdKey, Int64Val(res.claims.value.userId))
      else if res.user.Some? then SetUserInContext(ctx, res.user.value, res.accessToken)
      else ctx
  }

  /** Reject exactly when there is no result and the method is not public. */
  function Decide(result: Option<AuthResult>, procedure: string, ctx: Context): (d: Decision)
    ensures d.Reject? <==> result.None? && !IsPublicMethod(procedure)
    ensures d.Proceed? ==> d.ctx == BindResult(ctx, result)
  {
    if result.None? && !IsPublicMethod(procedure) then Reject else Proceed(BindResult(ctx, result))
  }

  /** A call's outcome: the error the interceptor returns, or whatever the handler returned. */
  datatype Reply<R> = Rejected(err: Error) | Handled(reply: R)

  /**
   * GRPCUnaryInterceptor: no incoming metadata is Unauthenticated before any
   * authentication; the header is the first "authorization" value.
   */
  function GrpcUnary<R>(crypto: Crypto, secret: string, now: int, ctx: Context, fullMethod: string, handler: Context -> R): (r: Reply<R>)
    ensures ctx.metadata.None? ==> r == Rejected(StatusError(Unauthenticated, "missing metadata"))
    ensures ctx.metadata.Some? ==>
      var result := Authenticate(crypto, secret, FirstValue(ctx.metadata.value, "authorization"), now);
      match Decide(result, fullMethod, ctx)
      case Reject => r == Rejected(StatusError(Unauthenticated, "authentication required"))
      case Proceed(c) => r == Handled(handler(c))
  {
    if ctx.metadata.None? then Rejected(StatusError(Unauthenticated, "missing metadata"))
    else
      var authHeader := FirstValue(ctx.metadata.value, "authorization");
      match Decide(Authenticate(crypto, secret, authHeader, now), fullMethod, ctx)
      case Reject => Rejected(StatusError(Unauthenticated, "authentication required"))
      case Proceed(c) => Handled(handler(c))
  }

  /** ConnectUnaryInterceptor: the same rule over the request's Authorization header. */
  function ConnectUnary<R>(crypto: Crypto, secret: string, now: int, ctx: Context, header: map<string, seq<string>>,
                          procedure: string, next: Context -> R): (r: Reply<R>)
    ensures r.Rejected? <==> Authenticate(crypto, secret, FirstValue(header, "Authorization"), now).None? && !IsPublicMethod(procedure)
    ensures r.Rejected? ==> r.err == ConnectError(Unauthenticated, "authentication required")
    ensures r.Handled? ==>
      r == Handled(next(BindResult(ctx, Authenticate(crypto, secret, FirstValue(header, "Authorization"), now))))
  {
    var authHeader := FirstValue(header, "Authorization");
    match Decide(Authenticate(crypto, secret, authHeader, now), procedure, ctx)
    case Reject => Rejected(ConnectError(Unauthenticated, "authentication required"))
    case Proceed(c) => Handled(next(c))
  }

  /** The body http.Error writes for the gateway's rejection (Fprintln adds the newline). */
  const GatewayRejectionBody: string := "{\"state\": 401, \"message\": \"authentication required\", \"data\": null}\n"

  /** What the gateway middleware does: answer 401 itself, or call next once with a request context. */
  datatype GatewayOutcome = Unauthorized(status: int, body: string) | Next(ctx: Context)

  /**
   * NewGatewayAuthMiddleware: rejects only when there is no result, the RPC
   * method is known and it is not public; the context is replaced only when
   * there is a result.
   */
  function GatewayAuth(crypto: Crypto, secret: string, now: int, ctx: Context, rpcMethod: Option<string>,
                       header: map<string, seq<string>>): (r: GatewayOutcome)
    ensures var result := Authenticate(crypto, secret, FirstValue(header, "Authorization"), now);
      (r.Unauthorized? <==> result.None? && rpcMethod.Some? && !IsPublicMethod(rpcMethod.value)) &&
      (r.Unauthorized? ==> r.status == 401 && r.body == GatewayRejectionBody) &&
      (r.Next? && result.None? ==> r.ctx == ctx)
  {
    var result := Authenticate(crypto, secret, FirstValue(header, "Authorization"), now);
    if result.None? && rpcMethod.Some? && !IsPublicMethod(rpcMethod.value) then
      Unauthorized(401, GatewayRejectionBody)
    else if result.Some? then Next(GatewayBind(ctx, result.value))
    else Next(ctx)
  }

  /** The gateway's context rebinding, which sets the user ID through SetUserIDInContext. */
  function GatewayBind(ctx: Context, res: AuthResult): (r: Context)
    ensures r == BindResult(ctx, Some(res))
  {
    if res.claims.Some? then SetUserIDInContext(SetUserClaimsInContext(ctx, res.claims), res.claims.value.userId)
    else if res.user.Some? then SetUserInContext(ctx, res.user.value, res.accessToken)
    else ctx
  }

  /** gRPC rejects a call without metadata even when the method is public. */
  lemma GrpcNeedsMetadataEvenWhenPublic<R>(crypto: Crypto, secret: string, now: int, ctx: Context, handler: Context -> R)
    requires ctx.metadata.None?
    ensures IsPublicMethod(AuthLogin)
    ensures GrpcUnary(crypto, secret, now, ctx, AuthLogin, handler).Rejected?
  {
  }

  /** The gateway lets an unauthenticated request through when it cannot tell the RPC method. */
  lemma GatewayPassesUnknownMethods(crypto: Crypto, secret: string, now: int, ctx: Context)
    ensures GatewayAuth(crypto, secret, now, ctx, None, map[]) == Next(ctx)
  {
  }

  /**
   * With metadata present and the same header, the three bindings agree: they
   * reject together, and otherwise run the handler on the same context.
   */
  lemma BindingsAgree<R>(crypto: Crypto, secret: string, now: int, ctx: Context, procedure: string,
                         header: map<string, seq<string>>, handler: Context -> R)
    requires ctx.metadata.Some?
    requires FirstValue(ctx.metadata.value, "authorization") == FirstValue(header, "Authorization")
    ensures GrpcUnary(crypto, secret, now, ctx, procedure, handler).Rejected? <==>
            ConnectUnary(crypto, secret, now, ctx, header, procedure, handler).Rejected?
    ensures ConnectUnary(crypto, secret, now, ctx, header, procedure, handler).Rejected? <==>
            GatewayAuth(crypto, secret, now, ctx, Some(procedure), header).Unauthorized?
    ensures GatewayAuth(crypto, secret, now, ctx, Some(procedure), header).Next? ==>
            GrpcUnary(crypto, secret, now, ctx, procedure, handler) ==
              Handled(handler(GatewayAuth(crypto, secret, now, ctx, Some(procedure), header).ctx))
    ensures ConnectUnary(crypto, secret, now, ctx, header, procedure, handler).Handled? ==>
            ConnectUnary(crypto, secret, now, ctx, header, procedure, handler) ==
              GrpcUnary(crypto, secret, now, ctx, procedure, handler)
  {
  }

  /** A freshly issued access token opens every method on every binding. */
  lemma FreshTokenOpensProtectedMethods<R>(crypto: Crypto, secret: string, now: int, ctx: Context,
                                           id: int, username: string, role: string, token: string,
                                           procedure: string, next: Context -> R)
    requires CryptoLaws(crypto)
    requires crypto.generateAccessToken(id, username, role, secret, now) == Some(token)
    ensures ConnectUnary(crypto, secret, now, ctx, map["Authorization" := [Bearer.BearerPrefix + token]], procedure, next) ==
      Handled(next(BindResult(ctx, Some(AuthResult(None, Some(UserClaims(id, username, role)), token)))))
  {
    GeneratedTokenAuthenticates(crypto, secret, id, username, role, now, token);
  }
}
