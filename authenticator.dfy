/** server/auth/authenticator.go: from an Authorization header to an optional AuthResult. */
module Authenticator {
  import opened Wrappers
  import opened Strings
  import opened StoreModel
  import opened Bearer
  import opened Crypto
  import opened Claims

  const PersonalAccessTokenPrefix: string := "pat_"

  /** User is never set by this authenticator; it is kept for the interceptors' second branch. */
  datatype AuthResult = AuthResult(user: Option<User>, claims: Option<UserClaims>, accessToken: string)

  /** AuthenticateByAccessTokenV2: the validated claims' ID, username and role, or an error (None). */
  function AuthenticateByAccessTokenV2(crypto: Crypto, secret: string, token: string, now: int): (r: Option<UserClaims>)
    ensures r.Some? <==> crypto.validateAccessToken(token, secret, now).Some?
    ensures r.Some? ==> var c := crypto.validateAccessToken(token, secret, now).value;
      r.value == UserClaims(c.userId, c.username, c.role)
  {
    match crypto.validateAccessToken(token, secret, now)
    case None => None
    case Some(c) => Some(UserClaims(c.userId, c.username, c.role))
  }

  /**
   * Authenticate: no token, a personal access token ("pat_...") or a token
   * that fails validation all give nil; otherwise the claims and the raw token.
   */
  function Authenticate(crypto: Crypto, secret: string, authHeader: string, now: int): (r: Option<AuthResult>)
    ensures var token := ExtractBearerToken(authHeader);
      (r.Some? <==> token != "" && !HasPrefix(token, PersonalAccessTokenPrefix) &&
                    crypto.validateAccessToken(token, secret, now).Some?) &&
      (r.Some? ==> r.value.user.None? && r.value.claims.Some? && r.value.accessToken == token &&
                   r.value.claims == AuthenticateByAccessTokenV2(crypto, secret, token, now))
  {
    var token := ExtractBearerToken(authHeader);
    if token == "" then None
    else if HasPrefix(token, PersonalAccessTokenPrefix) then None
    else match AuthenticateByAccessTokenV2(crypto, secret, token, now)
      case None => None
      case Some(claims) => Some(AuthResult(None, Some(claims), token))
  }

  /** A freshly generated access token, sent as a bearer token, authenticates as its user. */
  lemma GeneratedTokenAuthenticates(crypto: Crypto, secret: string, id: int, username: string, role: string, now: int, token: string)
    requires CryptoLaws(crypto)
    requires crypto.generateAccessToken(id, username, role, secret, now) == Some(token)
    ensures Authenticate(crypto, secret, BearerPrefix + token, now) ==
      Some(AuthResult(None, Some(UserClaims(id, username, role)), token))
  {
    ExtractRoundTrip(token);
  }

  /** Any "pat_" token is refused whatever it holds. */
  lemma PersonalAccessTokensRefused(crypto: Crypto, secret: string, rest: string, now: int)
    ensures Authenticate(crypto, secret, BearerPrefix + PersonalAccessTokenPrefix + rest, now).None?
  {
    assert BearerPrefix + PersonalAccessTokenPrefix + rest == BearerPrefix + (PersonalAccessTokenPrefix + rest);
    ExtractRoundTrip(PersonalAccessTokenPrefix + rest);
    assert (PersonalAccessTokenPrefix + rest)[..4] == PersonalAccessTokenPrefix;
  }
}
