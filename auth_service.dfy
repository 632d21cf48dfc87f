/**
 * server/service/auth_service.go: Login and RefreshToken drive the
 * refresh_tokens table (issue, then rotate: revoke the presented token before
 * saving its successor); ValidateToken and Logout only consult the validator.
 * The clock is `now`, the crypto primitives are a `Crypto` value, the random
 * refresh token is `randomToken` (None when crypto/rand fails), and each store
 * call that can fail has its own fault flag.
 */
module AuthService {
  import opened Wrappers
  import opened Errors
  import opened StoreModel
  import opened Cache
  import opened Database
  import opened Crypto
  import opened Store
  import opened ApiUsers
  import opened Strings

  datatype LoginRequest = LoginRequest(username: string, password: string)

  /** LoginResponse and RefreshTokenResponse carry the same four fields. */
  datatype TokenResponse = TokenResponse(accessToken: string, refreshToken: string, accessTokenExpiresAt: int, user: ApiUser)

  /**
   * The checks Login makes before issuing anything: both credentials present,
   * the username known, the password matching its hash, the password not
   * expired (strictly after PasswordExpires fails).
   */
  function LoginGate(users: seq<User>, c: Crypto, req: LoginRequest, now: int, lookupFault: bool): (r: Result<User>)
    ensures r.Ok? ==> r.value in users && Live(r.value) && r.value.username == req.username &&
                      req.username != "" && req.password != "" &&
                      c.checkPassword(req.password, r.value.password) && now <= r.value.passwordExpires
    ensures req.username == "" || req.password == "" ==>
      r == Err(ConnectError(InvalidArgument, "username and password are required"))
  {
    if req.username == "" || req.password == "" then
      Err(ConnectError(InvalidArgument, "username and password are required"))
    else if lookupFault then Err(DbError("get user"))
    else match FirstUser(users, ByUsername(req.username))
      case None => Err(ConnectError(Unauthenticated, "username not found"))
      case Some(u) =>
        if !c.checkPassword(req.password, u.password) then Err(ConnectError(Unauthenticated, "invalid password"))
        else if now > u.passwordExpires then Err(ConnectError(Unauthenticated, "password expired"))
        else Ok(u)
  }

  /**
   * The checks RefreshToken makes before touching anything: a token given,
   * known (the first live row holding it), neither revoked nor expired.
   */
  function RefreshGate(tokens: seq<RefreshToken>, presented: string, now: int, lookupFault: bool): (r: Result<RefreshToken>)
    ensures r.Ok? ==> r.value in tokens && LiveToken(r.value) && r.value.token == presented && presented != "" &&
                      !r.value.revoked && now <= r.value.expiresAt
    ensures presented == "" ==> r == Err(ConnectError(InvalidArgument, "refresh token is required"))
  {
    if presented == "" then Err(ConnectError(InvalidArgument, "refresh token is required"))
    else if lookupFault then Err(ConnectError(Internal, "failed to validate refresh token"))
    else match FirstToken(tokens, ByToken(presented))
      case None => Err(ConnectError(Unauthenticated, "invalid refresh token"))
      case Some(t) =>
        if t.revoked || now > t.expiresAt then Err(ConnectError(Unauthenticated, "refresh token expired or revoked"))
        else Ok(t)
  }

  /** The last steps shared by Login and RefreshToken: sign, draw a refresh token, save it. */
  function IssueTokens(u: User, access: Option<string>, refresh: Option<string>, saveFault: bool, c: Crypto, now: int)
    : (r: Result<TokenResponse>)
    ensures r.Ok? <==> access.Some? && refresh.Some? && !saveFault
    ensures r.Ok? ==> r.value.accessToken == access.value && r.value.refreshToken == refresh.value &&
                      r.value.user == ToApiUser(u) && r.value.accessTokenExpiresAt == now + c.accessTokenDuration
    ensures r.Err? ==> r.error.ConnectError? && r.error.code == Internal
  {
    if access.None? then Err(ConnectError(Internal, "failed to generate access token"))
    else if refresh.None? then Err(ConnectError(Internal, "failed to generate refresh token"))
    else if saveFault then Err(ConnectError(Internal, "failed to save refresh token"))
    else Ok(TokenResponse(access.value, refresh.value, now + c.accessTokenDuration, ToApiUser(u)))
  }

  /** The row CreateRefreshToken appends for a freshly issued token. */
  function IssuedRow(tokens: seq<RefreshToken>, userId: int, token: string, c: Crypto, now: int): RefreshToken {
    RefreshToken(|tokens| + 1, userId, token, now + c.refreshTokenDuration, false, now, now, None)
  }

  /** The table after UpdateRefreshToken{ID: id, Revoked: true}. */
  function Revoke(tokens: seq<RefreshToken>, id: int, now: int): (r: seq<RefreshToken>)
    requires 1 <= id <= |tokens|
    ensures |r| == |tokens| && r[id - 1].revoked
    ensures forall i :: 0 <= i < |r| && i != id - 1 ==> r[i] == tokens[i]
  {
    tokens[id - 1 := tokens[id - 1].(updatedAt := now, revoked := true)]
  }

  class AuthService {
    const secret: string
    const store: Store

    constructor (secret: string, store: Store)
      ensures this.secret == secret && this.store == store
    {
      this.secret := secret;
      this.store := store;
    }

    /**
     * Login: on success exactly one refresh token row is appended, for the
     * user, holding the returned refresh token and expiring after the
     * refresh-token lifetime; on any failure the table is unchanged.
     */
    method Login(req: LoginRequest, c: Crypto, now: int, randomToken: Option<string>, lookupFault: bool, saveFault: bool)
      returns (r: Result<TokenResponse>)
      requires store.Valid()
      modifies store.driver`tokens
      ensures store.Valid()
      ensures var gate := LoginGate(store.driver.users, c, req, now, lookupFault);
        r == if gate.Err? then Err(gate.error)
             else IssueTokens(gate.value,
                              c.generateAccessToken(gate.value.id, gate.value.username, gate.value.role, secret, now),
                              randomToken, saveFault, c, now)
      ensures var gate := LoginGate(store.driver.users, c, req, now, lookupFault);
        r.Ok? ==> (gate.Ok? &&
          store.driver.tokens == old(store.driver.tokens) +
            [IssuedRow(old(store.driver.tokens), gate.value.id, r.value.refreshToken, c, now)])
      ensures r.Err? ==> store.driver.tokens == old(store.driver.tokens)
    {
      if req.username == "" || req.password == "" {
        return Err(ConnectError(InvalidArgument, "username and password are required"));
      }
      var found := store.GetUserByUsername(req.username, lookupFault);
      if found.Err? {
        return Err(found.error);
      }
      if found.value.None? {
        return Err(ConnectError(Unauthenticated, "username not found"));
      }
      var user := found.value.value;
      if !c.checkPassword(req.password, user.password) {
        return Err(ConnectError(Unauthenticated, "invalid password"));
      }
      if now > user.passwordExpires {
        return Err(ConnectError(Unauthenticated, "password expired"));
      }
      r := Issue(user, c, now, randomToken, saveFault);
    }

    /** The tail both Login and RefreshToken run for a checked user: sign, draw, save. */
    method Issue(user: User, c: Crypto, now: int, randomToken: Option<string>, saveFault: bool) returns (r: Result<TokenResponse>)
      requires store.Valid()
      modifies store.driver`tokens
      ensures store.Valid()
      ensures r == IssueTokens(user, c.generateAccessToken(user.id, user.username, user.role, secret, now), randomToken, saveFault, c, now)
      ensures store.driver.tokens ==
        if r.Ok? then old(store.driver.tokens) + [IssuedRow(old(store.driver.tokens), user.id, r.value.refreshToken, c, now)]
        else old(store.driver.tokens)
    {
      var accessToken := c.generateAccessToken(user.id, user.username, user.role, secret, now);
      if accessToken.None? {
        return Err(ConnectError(Internal, "failed to generate access token"));
      }
      if randomToken.None? {
        return Err(ConnectError(Internal, "failed to generate refresh token"));
      }
      var saved := store.CreateRefreshToken(CreateRefreshToken(user.id, randomToken.value, now + c.refreshTokenDuration), now, saveFault);
      if saved.Err? {
        return Err(ConnectError(Internal, "failed to save refresh token"));
      }
      return Ok(TokenResponse(accessToken.value, randomToken.value, now + c.accessTokenDuration, ToApiUser(user)));
    }

    /**
     * RefreshToken: single-use rotation. Nothing is written until the
     * presented token and its user check out; then the presented token is
     * revoked BEFORE the successor is generated and saved, so a failure in
     * the later steps leaves it revoked and nothing new saved. A revoke whose
     * re-read fails has already revoked the token, yet reports the failure.
     */
    method RefreshToken(presented: string, c: Crypto, now: int, randomToken: Option<string>,
                        lookupFault: bool, userFault: bool, revokeFault: bool, revokeReadFault: bool, saveFault: bool)
      returns (r: Result<TokenResponse>)
      requires store.Valid()
      modifies store.driver`tokens, store.userCache`items
      ensures store.Valid()
      ensures var gate := RefreshGate(old(store.driver.tokens), presented, now, lookupFault);
        gate.Err? ==> (r == Err(gate.error) &&
          store.driver.tokens == old(store.driver.tokens) && store.userCache.items == old(store.userCache.items))
      ensures var gate := RefreshGate(old(store.driver.tokens), presented, now, lookupFault);
        gate.Ok? ==> (HasLiveToken(old(store.driver.tokens), gate.value.id) &&
          var t := gate.value;
          var user := ResolveUser(old(store.userCache.items), store.driver.users, t.userId, now, userFault);
          var revoked := Revoke(old(store.driver.tokens), t.id, now);
          store.userCache.items == AfterGet(old(store.userCache.items), UserKey(t.userId), now) &&
          (user.Err? ==>
            r == Err(ConnectError(Internal, "failed to get user")) && store.driver.tokens == old(store.driver.tokens)) &&
          (user.Ok? && revokeFault ==>
            r == Err(ConnectError(Internal, "failed to revoke old refresh token")) && store.driver.tokens == old(store.driver.tokens)) &&
          (user.Ok? && !revokeFault && revokeReadFault ==>
            r == Err(ConnectError(Internal, "failed to revoke old refresh token")) && store.driver.tokens == revoked) &&
          (user.Ok? && !revokeFault && !revokeReadFault ==>
            r == IssueTokens(user.value, c.generateAccessToken(user.value.id, user.value.username, user.value.role, secret, now),
                             randomToken, saveFault, c, now) &&
            store.driver.tokens ==
              if r.Ok? then revoked + [IssuedRow(revoked, user.value.id, r.value.refreshToken, c, now)] else revoked))
    {
      if presented == "" {
        return Err(ConnectError(InvalidArgument, "refresh token is required"));
      }
      var found := store.GetRefreshToken(presented, lookupFault);
      if found.Err? {
        return Err(ConnectError(Internal, "failed to validate refresh token"));
      }
      if found.value.None? {
        return Err(ConnectError(Unauthenticated, "invalid refresh token"));
      }
      var t := found.value.value;
      if t.revoked || now > t.expiresAt {
        return Err(ConnectError(Unauthenticated, "refresh token expired or revoked"));
      }
      FoundTokenIsItsRow(store.driver.tokens, presented);
      r := Rotate(t, c, now, randomToken, userFault, revokeFault, revokeReadFault, saveFault);
    }

    /** RefreshToken after the presented token checked out: resolve its user, revoke it, then issue. */
    method Rotate(t: RefreshToken, c: Crypto, now: int, randomToken: Option<string>,
                  userFault: bool, revokeFault: bool, revokeReadFault: bool, saveFault: bool)
      returns (r: Result<TokenResponse>)
      requires store.Valid() && HasLiveToken(store.driver.tokens, t.id)
      modifies store.driver`tokens, store.userCache`items
      ensures store.Valid()
      ensures store.userCache.items == AfterGet(old(store.userCache.items), UserKey(t.userId), now)
      ensures var user := ResolveUser(old(store.userCache.items), store.driver.users, t.userId, now, userFault);
        user.Err? ==>
          r == Err(ConnectError(Internal, "failed to get user")) && store.driver.tokens == old(store.driver.tokens)
      ensures var user := ResolveUser(old(store.userCache.items), store.driver.users, t.userId, now, userFault);
        user.Ok? && revokeFault ==>
          r == Err(ConnectError(Internal, "failed to revoke old refresh token")) && store.driver.tokens == old(store.driver.tokens)
      ensures var user := ResolveUser(old(store.userCache.items), store.driver.users, t.userId, now, userFault);
        user.Ok? && !revokeFault && revokeReadFault ==>
          r == Err(ConnectError(Internal, "failed to revoke old refresh token")) &&
          store.driver.tokens == Revoke(old(store.driver.tokens), t.id, now)
      ensures var user := ResolveUser(old(store.userCache.items), store.driver.users, t.userId, now, userFault);
        var revoked := Revoke(old(store.driver.tokens), t.id, now);
        user.Ok? && !revokeFault && !revokeReadFault ==>
          r == IssueTokens(user.value, c.generateAccessToken(user.value.id, user.value.username, user.value.role, secret, now),
                           randomToken, saveFault, c, now) &&
          store.driver.tokens ==
            if r.Ok? then revoked + [IssuedRow(revoked, user.value.id, r.value.refreshToken, c, now)] else revoked
    {
      var user := store.GetUser(FindById(t.userId), now, userFault);
      if user.Err? {
        return Err(ConnectError(Internal, "failed to get user"));
      }
      var revoked := store.UpdateRefreshToken(UpdateRefreshToken(t.id, Some(true)), now, revokeFault, revokeReadFault);
      if revoked.Err? {
        return Err(ConnectError(Internal, "failed to revoke old refresh token"));
      }
      r := Issue(user.value, c, now, randomToken, saveFault);
    }

    /** ValidateToken: a non-empty token is never an error; validity is the answer. */
    function ValidateToken(token: string, c: Crypto, now: int): (r: Result<bool>)
      ensures token == "" <==> r.Err?
      ensures r.Ok? ==> (r.value <==> c.validateAccessToken(token, secret, now).Some?)
    {
      if token == "" then Err(ConnectError(InvalidArgument, "token is required"))
      else Ok(c.validateAccessToken(token, secret, now).Some?)
    }

    /** Logout: InvalidArgument for no token, Unauthenticated for an invalid one, else success; nothing is revoked. */
    function Logout(token: string, c: Crypto, now: int): (r: Result<bool>)
      ensures r.Ok? ==> r.value
      ensures r.Ok? <==> ValidateToken(token, c, now) == Ok(true)
      ensures token != "" && r.Err? ==> r.error == ConnectError(Unauthenticated, "invalid token")
    {
      if token == "" then Err(ConnectError(InvalidArgument, "token is required"))
      else if c.validateAccessToken(token, secret, now).None? then Err(ConnectError(Unauthenticated, "invalid token"))
      else Ok(true)
    }

    /** A token this server just signed validates, and logging out with it succeeds. */
    lemma FreshAccessTokenIsValid(c: Crypto, id: int, username: string, role: string, now: int)
      requires CryptoLaws(c)
      requires c.generateAccessToken(id, username, role, secret, now).Some?
      ensures ValidateToken(c.generateAccessToken(id, username, role, secret, now).value, c, now) == Ok(true)
      ensures Logout(c.generateAccessToken(id, username, role, secret, now).value, c, now) == Ok(true)
    {
      var token := c.generateAccessToken(id, username, role, secret, now).value;
      assert c.validateAccessToken(token, secret, now) == Some(JwtClaims(id, username, role, Issuer));
    }
  }

  /** The first live row holding a token sits at its own id, with no earlier live row holding it. */
  lemma FoundTokenIsItsRow(rows: seq<RefreshToken>, token: string)
    requires forall i :: 0 <= i < |rows| ==> rows[i].id == i + 1
    requires FirstToken(rows, ByToken(token)).Some?
    ensures var t := FirstToken(rows, ByToken(token)).value;
      HasLiveToken(rows, t.id) && rows[t.id - 1] == t && t.token == token &&
      forall j :: 0 <= j < t.id - 1 ==> !(LiveToken(rows[j]) && rows[j].token == token)
  {
    var i := FirstTokenPosition(rows, token);
  }

  lemma {:induction false} FirstTokenPosition(rows: seq<RefreshToken>, token: string) returns (i: int)
    requires FirstToken(rows, ByToken(token)).Some?
    ensures 0 <= i < |rows| && FirstToken(rows, ByToken(token)) == Some(rows[i])
    ensures LiveToken(rows[i]) && rows[i].token == token
    ensures forall j :: 0 <= j < i ==> !(LiveToken(rows[j]) && rows[j].token == token)
  {
    if MatchesTokenFind(rows[0], ByToken(token)) {
      i := 0;
    } else {
      assert SelectTokens(rows, ByToken(token)) == SelectTokens(rows[1..], ByToken(token));
      var k := FirstTokenPosition(rows[1..], token);
      i := k + 1;
    }
  }

  /** A correct password of a known, unexpired user always passes the gate. */
  lemma RightPasswordPasses(users: seq<User>, c: Crypto, req: LoginRequest, now: int, u: User, password: string)
    requires CryptoLaws(c)
    requires req.username != "" && req.password == password && password != ""
    requires FirstUser(users, ByUsername(req.username)) == Some(u)
    requires c.hashPassword(password) == Some(u.password) && now <= u.passwordExpires
    ensures LoginGate(users, c, req, now, false) == Ok(u)
  {
  }

  /**
   * A password that differs from the right one within bcrypt's 72-byte key is
   * refused as invalid, whatever the clock says.
   */
  lemma WrongPasswordFails(users: seq<User>, c: Crypto, req: LoginRequest, now: int, u: User, password: string)
    requires BcryptLaw(c)
    requires req.username != "" && req.password != "" && BcryptKey(req.password) != BcryptKey(password)
    requires FirstUser(users, ByUsername(req.username)) == Some(u)
    requires c.hashPassword(password) == Some(u.password)
    ensures LoginGate(users, c, req, now, false) == Err(ConnectError(Unauthenticated, "invalid password"))
  {
  }

  /**
   * The other side of bcrypt's key: when the right password fills the 72
   * bytes, anything typed after it is ignored and the login passes the gate.
   */
  lemma ExtendedPasswordPasses(users: seq<User>, c: Crypto, now: int, u: User, password: string, tail: string)
    requires BcryptLaw(c)
    requires u.username != "" && Utf8Len(password) >= BcryptMaxKeyBytes
    requires FirstUser(users, ByUsername(u.username)) == Some(u)
    requires c.hashPassword(password) == Some(u.password) && now <= u.passwordExpires
    ensures LoginGate(users, c, LoginRequest(u.username, password + tail), now, false) == Ok(u)
  {
    LongPasswordsShareKey(password, tail);
  }

  /**
   * Single use: once a token has been rotated (revoked, whatever was saved
   * after it, even a successor with the same text), presenting it again is
   * refused as revoked.
   */
  lemma ReplayIsRefused(tokens: seq<RefreshToken>, presented: string, now: int, later: int, saved: seq<RefreshToken>)
    requires forall i :: 0 <= i < |tokens| ==> tokens[i].id == i + 1
    requires RefreshGate(tokens, presented, now, false).Ok?
    ensures var t := RefreshGate(tokens, presented, now, false).value;
      1 <= t.id <= |tokens| &&
      RefreshGate(Revoke(tokens, t.id, now) + saved, presented, later, false) ==
        Err(ConnectError(Unauthenticated, "refresh token expired or revoked"))
  {
    FoundTokenIsItsRow(tokens, presented);
    var t := RefreshGate(tokens, presented, now, false).value;
    var rows' := Revoke(tokens, t.id, now) + saved;
    forall j | 0 <= j < t.id - 1
      ensures !(LiveToken(rows'[j]) && rows'[j].token == presented)
    {
      assert rows'[j] == tokens[j];
    }
    FirstTokenIsEarliest(rows', presented, t.id - 1);
  }

  /** The refresh token Login saves is accepted by RefreshToken until it expires. */
  lemma IssuedTokenRefreshes(tokens: seq<RefreshToken>, userId: int, token: string, c: Crypto, now: int, later: int)
    requires token != "" && later <= now + c.refreshTokenDuration
    requires forall i :: 0 <= i < |tokens| ==> !(LiveToken(tokens[i]) && tokens[i].token == token)
    ensures RefreshGate(tokens + [IssuedRow(tokens, userId, token, c, now)], token, later, false) ==
              Ok(IssuedRow(tokens, userId, token, c, now))
  {
    var rows' := tokens + [IssuedRow(tokens, userId, token, c, now)];
    forall j | 0 <= j < |tokens|
      ensures !(LiveToken(rows'[j]) && rows'[j].token == token)
    {
      assert rows'[j] == tokens[j];
    }
    FirstTokenIsEarliest(rows', token, |tokens|);
  }
}
