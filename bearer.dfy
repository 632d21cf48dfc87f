/** server/auth/extract.go: the case-sensitive "Bearer " scheme of section 2.1 of RFC 6750, without its optional whitespace. */
module Bearer {
  import opened Strings

  const BearerPrefix: string := "Bearer "

  /** ExtractBearerToken: the text after the prefix, or "" when the header lacks it. */
  function ExtractBearerToken(authHeader: string): (token: string)
    ensures HasPrefix(authHeader, BearerPrefix) ==> authHeader == BearerPrefix + token
    ensures !HasPrefix(authHeader, BearerPrefix) ==> token == ""
  {
    if HasPrefix(authHeader, BearerPrefix) then TrimPrefix(authHeader, BearerPrefix) else ""
  }

  /** Extraction inverts the Authorization header a client builds. */
  lemma ExtractRoundTrip(token: string)
    ensures ExtractBearerToken(BearerPrefix + token) == token
  {
    assert (BearerPrefix + token)[..|BearerPrefix|] == BearerPrefix;
  }

  /** The scheme is matched case-sensitively. */
  lemma SchemeIsCaseSensitive(token: string)
    ensures ExtractBearerToken("bearer " + token) == ""
    ensures ExtractBearerToken("BEARER " + token) == ""
  {
    assert ("bearer " + token)[0] == 'b';
    assert ("BEARER " + token)[1] == 'E';
  }

  /** A bare scheme yields the same "" as a missing header. */
  lemma BareSchemeLooksMissing()
    ensures ExtractBearerToken("Bearer ") == "" == ExtractBearerToken("")
  {
  }

  /** Only one prefix is removed. */
  lemma OnlyOnePrefixRemoved(token: string)
    ensures ExtractBearerToken(BearerPrefix + BearerPrefix + token) == BearerPrefix + token
  {
    assert BearerPrefix + BearerPrefix + token == BearerPrefix + (BearerPrefix + token);
    ExtractRoundTrip(BearerPrefix + token);
  }

  /** A token is extracted exactly when the header is the prefix followed by something. */
  lemma NonEmptyTokenCharacterisation(authHeader: string)
    ensures ExtractBearerToken(authHeader) != "" <==> HasPrefix(authHeader, BearerPrefix) && |authHeader| > |BearerPrefix|
  {
  }
}
