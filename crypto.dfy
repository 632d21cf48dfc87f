/**
 * The token and password primitives the auth code calls (GenerateAccessToken,
 * ValidateAccessToken, HashPassword, CheckPassword, GenerateRefreshToken and the
 * two token lifetimes). Their code is not part of this model, so they are values
 * of `Crypto`, and the laws their tests state are the predicate `CryptoLaws`.
 */
module Crypto {
  import opened Wrappers
  import opened Strings

  /** The claims of a validated HS256 access token (RFC 7519). */
  datatype JwtClaims = JwtClaims(userId: int, username: string, role: string, issuer: string)

  const Issuer: string := "go-server"

  datatype Crypto = Crypto(
    /** GenerateAccessToken(userID, username, role, secret) issued at `now`; None is an error. */
    generateAccessToken: (int, string, string, string, int) -> Option<string>,
    /** ValidateAccessToken(token, secret) at `now`; None is an error (bad signature, expired, malformed). */
    validateAccessToken: (string, string, int) -> Option<JwtClaims>,
    /** HashPassword; None is an error. */
    hashPassword: string -> Option<string>,
    /** CheckPassword(password, hash) */
    checkPassword: (string, string) -> bool,
    accessTokenDuration: int,
    refreshTokenDuration: int)

  /**
   * What the auth tests promise: a fresh access token validates to the claims
   * it was made from with issuer "go-server" (and, being a JWT, it neither is
   * empty nor starts with "pat_"); a hash differs from the password and
   * accepts the password. Which other passwords it accepts is `BcryptLaw`.
   */
  ghost predicate CryptoLaws(c: Crypto) {
    (forall id, username, role, secret, now, token ::
      c.generateAccessToken(id, username, role, secret, now) == Some(token) ==>
        token != "" && !HasPrefix(token, "pat_") &&
        c.validateAccessToken(token, secret, now) == Some(JwtClaims(id, username, role, Issuer))) &&
    (forall password, hash ::
      c.hashPassword(password) == Some(hash) ==> hash != password && c.checkPassword(password, hash))
  }

  /** bcrypt keys its cipher with at most this many bytes of the password. */
  const BcryptMaxKeyBytes := 72

  /** The part of a password bcrypt reads: the first 72 bytes of its UTF-8 encoding. */
  function BcryptKey(password: string): (k: seq<bv8>)
    ensures |k| <= BcryptMaxKeyBytes && k <= Utf8(password)
    ensures Utf8Len(password) <= BcryptMaxKeyBytes ==> k == Utf8(password)
  {
    var b := Utf8(password);
    if |b| <= BcryptMaxKeyBytes then b else b[..BcryptMaxKeyBytes]
  }

  /**
   * bcrypt's CompareHashAndPassword: a hash accepts exactly the passwords whose
   * key is the key of the password it was made from.
   */
  ghost predicate BcryptLaw(c: Crypto) {
    forall password, other, hash ::
      c.hashPassword(password) == Some(hash) ==> (c.checkPassword(other, hash) <==> BcryptKey(other) == BcryptKey(password))
  }

  /** Whatever follows the first 72 bytes of a password is not part of its key. */
  lemma {:induction false} LongPasswordsShareKey(password: string, tail: string)
    requires Utf8Len(password) >= BcryptMaxKeyBytes
    ensures BcryptKey(password + tail) == BcryptKey(password)
  {
    Utf8Concat(password, tail);
    var b := Utf8(password);
    assert (b + Utf8(tail))[..BcryptMaxKeyBytes] == b[..BcryptMaxKeyBytes];
  }
}
