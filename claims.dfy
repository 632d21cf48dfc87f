/**
 * server/auth/claims.go: the request context as an immutable map from the
 * three auth keys to whatever was stored under them, plus the incoming gRPC
 * metadata when the transport attached any.
 */
module Claims {
  import opened Wrappers
  import opened StoreModel

  datatype UserClaims = UserClaims(userId: int, username: string, role: string)

  /** UserIDContextKey, AccessTokenContextKey, UserClaimsContextKey: three distinct keys. */
  datatype ContextKey = UserIdKey | AccessTokenKey | UserClaimsKey

  /** A stored value: an int64, a string, a (possibly nil) *UserClaims, or something else. */
  datatype Value = Int64Val(i: int) | StringVal(s: string) | ClaimsVal(claims: Option<UserClaims>) | OtherVal

  datatype Context = Context(values: map<ContextKey, Value>, metadata: Option<map<string, seq<string>>>)

  /** GetUserID: the stored int64, else 0. */
  function GetUserID(ctx: Context): (id: int)
    ensures UserIdKey in ctx.values && ctx.values[UserIdKey].Int64Val? ==> id == ctx.values[UserIdKey].i
    ensures !(UserIdKey in ctx.values && ctx.values[UserIdKey].Int64Val?) ==> id == 0
  {
    if UserIdKey in ctx.values then
      match ctx.values[UserIdKey]
      case Int64Val(i) => i
      case _ => 0
    else 0
  }

  /** GetUserClaims: the stored pointer, else nil. */
  function GetUserClaims(ctx: Context): (c: Option<UserClaims>)
    ensures UserClaimsKey in ctx.values && ctx.values[UserClaimsKey].ClaimsVal? ==> c == ctx.values[UserClaimsKey].claims
    ensures !(UserClaimsKey in ctx.values && ctx.values[UserClaimsKey].ClaimsVal?) ==> c == None
  {
    if UserClaimsKey in ctx.values then
      match ctx.values[UserClaimsKey]
      case ClaimsVal(c) => c
      case _ => None
    else None
  }

  function WithValue(ctx: Context, key: ContextKey, v: Value): (r: Context)
    ensures r.metadata == ctx.metadata
  {
    ctx.(values := ctx.values[key := v])
  }

  /** Only the claims key changes; the metadata is kept. */
  function SetUserClaimsInContext(ctx: Context, claims: Option<UserClaims>): (r: Context)
    ensures r.metadata == ctx.metadata && r.values.Keys == ctx.values.Keys + {UserClaimsKey}
    ensures forall k :: k in ctx.values && k != UserClaimsKey ==> r.values[k] == ctx.values[k]
  {
    WithValue(ctx, UserClaimsKey, ClaimsVal(claims))
  }

  /** SetUserIDInContext (gateway_middleware.go) */
  function SetUserIDInContext(ctx: Context, userId: int): (r: Context)
    ensures r.metadata == ctx.metadata && r.values.Keys == ctx.values.Keys + {UserIdKey}
    ensures forall k :: k in ctx.values && k != UserIdKey ==> r.values[k] == ctx.values[k]
  {
    WithValue(ctx, UserIdKey, Int64Val(userId))
  }

  /** SetUserInContext: the user's ID, and the access token only when non-empty. */
  function SetUserInContext(ctx: Context, user: User, accessToken: string): (r: Context)
    ensures r.metadata == ctx.metadata
    ensures r.values.Keys == ctx.values.Keys + {UserIdKey} + (if accessToken != "" then {AccessTokenKey} else {})
    ensures UserClaimsKey in ctx.values ==> r.values[UserClaimsKey] == ctx.values[UserClaimsKey]
  {
    var c := WithValue(ctx, UserIdKey, Int64Val(user.id));
    if accessToken != "" then WithValue(c, AccessTokenKey, StringVal(accessToken)) else c
  }

  /** Claims stored are claims read back; nothing else in the context changes. */
  lemma ClaimsRoundTrip(ctx: Context, claims: Option<UserClaims>)
    ensures GetUserClaims(SetUserClaimsInContext(ctx, claims)) == claims
    ensures GetUserID(SetUserClaimsInContext(ctx, claims)) == GetUserID(ctx)
    ensures forall k :: k != UserClaimsKey && k in ctx.values ==> SetUserClaimsInContext(ctx, claims).values[k] == ctx.values[k]
  {
  }

  /** SetUserInContext sets the ID, sets the token only when non-empty, and never sets claims. */
  lemma SetUserInContextEffect(ctx: Context, user: User, accessToken: string)
    ensures GetUserID(SetUserInContext(ctx, user, accessToken)) == user.id
    ensures GetUserClaims(SetUserInContext(ctx, user, accessToken)) == GetUserClaims(ctx)
    ensures accessToken != "" ==> SetUserInContext(ctx, user, accessToken).values[AccessTokenKey] == StringVal(accessToken)
    ensures accessToken == "" ==> SetUserInContext(ctx, user, accessToken).values == ctx.values[UserIdKey := Int64Val(user.id)]
  {
  }

  /** An ID stored under the key is read back; a value of another type reads as 0. */
  lemma UserIdRoundTrip(ctx: Context, id: int)
    ensures GetUserID(SetUserIDInContext(ctx, id)) == id
    ensures GetUserID(WithValue(ctx, UserIdKey, StringVal("1"))) == 0
  {
  }
}
