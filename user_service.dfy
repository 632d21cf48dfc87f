/**
 * server/service/user_service.go: registration with its field validation,
 * and the profile calls of the signed-in user (read, partial update, password
 * change). Lengths are Go's len, i.e. UTF-8 bytes; the phone check walks the
 * string rune by rune.
 */
module UserService {
  import opened Wrappers
  import opened Errors
  import opened Strings
  import opened StoreModel
  import opened Cache
  import opened Database
  import opened Crypto
  import opened Store
  import opened ApiUsers
  import opened Claims
  import opened Email
  import AuthService

  datatype RegisterRequest = RegisterRequest(username: string, password: string, email: string, nickname: string, phone: string)

  datatype UpdateProfileRequest = UpdateProfileRequest(nickname: string, phone: string, email: string)

  datatype ChangePasswordRequest = ChangePasswordRequest(oldPassword: string, newPassword: string)

  function Invalid(message: string): Error {
    ConnectError(InvalidArgument, message)
  }

  const AuthenticationRequired: Error := ConnectError(Unauthenticated, "authentication required")

  predicate AllAsciiDigits(s: string) {
    forall i :: 0 <= i < |s| ==> '0' <= s[i] <= '9'
  }

  /** The phone rule of both calls once the phone is non-empty: 11 bytes, then digits only. */
  function PhoneFormatError(phone: string): Option<Error> {
    if Utf8Len(phone) != 11 then Some(Invalid("phone must be 11 digits"))
    else if !AllAsciiDigits(phone) then Some(Invalid("phone must be only digits"))
    else None
  }

  /** The email rule of both calls once the email is non-empty: at most 100 bytes, then the pattern. */
  function EmailFormatError(email: string): Option<Error> {
    if Utf8Len(email) > 100 then Some(Invalid("email must be at most 100 characters"))
    else if !IsValidEmail(email) then Some(Invalid("email must be a valid email address"))
    else None
  }

  /** RegisterUser's field checks in source order; the first failure is the answer. */
  function RegistrationError(req: RegisterRequest): (r: Option<Error>)
    ensures r.None? <==>
      3 <= Utf8Len(req.username) <= 50 &&
      req.nickname != "" && Utf8Len(req.nickname) <= 50 &&
      req.password != "" && Utf8Len(req.password) >= 6 &&
      req.phone != "" && Utf8Len(req.phone) == 11 && AllAsciiDigits(req.phone) &&
      req.email != "" && Utf8Len(req.email) <= 100 && IsValidEmail(req.email)
    ensures r.Some? ==> r.value.ConnectError? && r.value.code == InvalidArgument
  {
    if Utf8Len(req.username) < 3 || Utf8Len(req.username) > 50 then Some(Invalid("username must be between 3 and 50 characters"))
    else if req.nickname == "" then Some(Invalid("nickname is required"))
    else if Utf8Len(req.nickname) > 50 then Some(Invalid("nickname must be at most 50 characters"))
    else if req.password == "" then Some(Invalid("password is required"))
    else if Utf8Len(req.password) < 6 then Some(Invalid("password must be at least 6 characters"))
    else if req.phone == "" then Some(Invalid("phone is required"))
    else if PhoneFormatError(req.phone).Some? then PhoneFormatError(req.phone)
    else if req.email == "" then Some(Invalid("email is required"))
    else EmailFormatError(req.email)
  }

  /** UpdateUserProfile's checks: only the fields that are given are checked. */
  function ProfileError(req: UpdateProfileRequest): (r: Option<Error>)
    ensures r.None? <==>
      (req.nickname != "" ==> Utf8Len(req.nickname) <= 50) &&
      (req.phone != "" ==> Utf8Len(req.phone) == 11 && AllAsciiDigits(req.phone)) &&
      (req.email != "" ==> Utf8Len(req.email) <= 100 && IsValidEmail(req.email))
    ensures r.Some? ==> r.value.ConnectError? && r.value.code == InvalidArgument
  {
    if req.nickname != "" && Utf8Len(req.nickname) > 50 then Some(Invalid("nickname must be at most 50 characters"))
    else if req.phone != "" && PhoneFormatError(req.phone).Some? then PhoneFormatError(req.phone)
    else if req.email != "" then EmailFormatError(req.email)
    else None
  }

  /** The phone rule counts bytes, but a phone that passes is exactly eleven ASCII digits. */
  lemma PhoneRuleMeansElevenDigits(phone: string)
    ensures PhoneFormatError(phone).None? <==> |phone| == 11 && AllAsciiDigits(phone)
  {
    if AllAsciiDigits(phone) {
      AsciiLengths(phone);
    } else if Utf8Len(phone) == 11 {
      assert PhoneFormatError(phone) == Some(Invalid("phone must be only digits"));
    }
  }

  /** The update UpdateUserProfile sends: the ID, plus each non-empty field; the rest stays nil. */
  function ProfileUpdate(id: int, req: UpdateProfileRequest): UpdateUser {
    NoChange(id).(
      nickname := if req.nickname != "" then Some(req.nickname) else None,
      phone := if req.phone != "" then Some(req.phone) else None,
      email := if req.email != "" then Some(req.email) else None)
  }

  /** A profile update rewrites only the given contact fields; name, password, role and expiry are kept. */
  lemma ProfileUpdateTouchesOnlyGivenFields(u: User, id: int, req: UpdateProfileRequest, now: int)
    ensures var r := ApplyUserUpdate(u, ProfileUpdate(id, req), now);
      r.username == u.username && r.password == u.password && r.role == u.role &&
      r.passwordExpires == u.passwordExpires && r.updatedAt == now &&
      r.nickname == (if req.nickname != "" then req.nickname else u.nickname) &&
      r.phone == (if req.phone != "" then req.phone else u.phone) &&
      r.email == (if req.email != "" then req.email else u.email)
  {
  }

  /** ChangePassword's argument checks, in source order. */
  function PasswordChangeError(req: ChangePasswordRequest): (r: Option<Error>)
    ensures r.None? <==> req.oldPassword != "" && req.newPassword != "" && Utf8Len(req.newPassword) >= 6
  {
    if req.oldPassword == "" then Some(Invalid("old password is required"))
    else if req.newPassword == "" then Some(Invalid("new password is required"))
    else if Utf8Len(req.newPassword) < 6 then Some(Invalid("new password must be at least 6 characters"))
    else None
  }

  /** The update ChangePassword sends: the ID and the new hash, nothing else. */
  function PasswordOnly(id: int, hash: string): UpdateUser {
    NoChange(id).(password := Some(hash))
  }

  /** The registration checks that need the table and the hasher, after the field checks; Ok carries the hash. */
  function Admission(users: seq<User>, req: RegisterRequest, c: Crypto, usernameFault: bool, emailFault: bool): (r: Result<string>)
    ensures r.Ok? ==>
      RegistrationError(req).None? && c.hashPassword(req.password) == Some(r.value) &&
      FirstUser(users, ByUsername(req.username)).None? && FirstUser(users, ByEmail(req.email)).None?
  {
    if RegistrationError(req).Some? then Err(RegistrationError(req).value)
    else if usernameFault then Err(DbError("get user"))
    else if FirstUser(users, ByUsername(req.username)).Some? then Err(ConnectError(AlreadyExists, "username already exists"))
    else if emailFault then Err(DbError("get user"))
    else if FirstUser(users, ByEmail(req.email)).Some? then Err(ConnectError(AlreadyExists, "email already exists"))
    else match c.hashPassword(req.password)
      case None => Err(ConnectError(Internal, "failed to hash password"))
      case Some(hash) => Ok(hash)
  }

  /** The record RegisterUser hands to CreateUser: the hash in place of the password, role "user". */
  function NewUser(req: RegisterRequest, hash: string): User {
    User(0, req.username, req.nickname, hash, req.phone, req.email, RoleUser, 0, 0, 0, None)
  }

  /** The reply of UpdateUserProfile and ChangePassword after Store.UpdateUser; a vanished user is NotFound. */
  function UpdatedReply(updated: Result<Option<User>>, failure: string): (r: Result<ApiUser>)
    ensures r.Ok? <==> updated.Ok? && updated.value.Some?
    ensures r.Ok? ==> r.value == ToApiUser(updated.value.value)
  {
    match updated
    case Err(_) => Err(ConnectError(Internal, failure))
    case Ok(None) => Err(ConnectError(NotFound, "user not found"))
    case Ok(Some(u)) => Ok(ToApiUser(u))
  }

  class UserService {
    const secret: string
    const store: Store

    constructor (secret: string, store: Store)
      ensures this.secret == secret && this.store == store
    {
      this.secret := secret;
      this.store := store;
    }

    /** The rune loop over the phone number. */
    static method CheckPhoneDigits(phone: string) returns (ok: bool)
      ensures ok <==> AllAsciiDigits(phone)
    {
      var i := 0;
      while i < |phone|
        invariant 0 <= i <= |phone|
        invariant forall k :: 0 <= k < i ==> '0' <= phone[k] <= '9'
      {
        if phone[i] < '0' || phone[i] > '9' {
          return false;
        }
        i := i + 1;
      }
      return true;
    }

    static method CheckPhone(phone: string) returns (err: Option<Error>)
      ensures err == PhoneFormatError(phone)
    {
      if Utf8Len(phone) != 11 {
        return Some(Invalid("phone must be 11 digits"));
      }
      var digits := CheckPhoneDigits(phone);
      if !digits {
        return Some(Invalid("phone must be only digits"));
      }
      return None;
    }

    static method ValidateRegistration(req: RegisterRequest) returns (err: Option<Error>)
      ensures err == RegistrationError(req)
    {
      if Utf8Len(req.username) < 3 || Utf8Len(req.username) > 50 {
        return Some(Invalid("username must be between 3 and 50 characters"));
      }
      if req.nickname == "" {
        return Some(Invalid("nickname is required"));
      }
      if Utf8Len(req.nickname) > 50 {
        return Some(Invalid("nickname must be at most 50 characters"));
      }
      if req.password == "" {
        return Some(Invalid("password is required"));
      }
      if Utf8Len(req.password) < 6 {
        return Some(Invalid("password must be at least 6 characters"));
      }
      if req.phone == "" {
        return Some(Invalid("phone is required"));
      }
      err := CheckPhone(req.phone);
      if err.Some? {
        return;
      }
      if req.email == "" {
        return Some(Invalid("email is required"));
      }
      return EmailFormatError(req.email);
    }

    static method ValidateProfile(req: UpdateProfileRequest) returns (err: Option<Error>)
      ensures err == ProfileError(req)
    {
      if req.nickname != "" && Utf8Len(req.nickname) > 50 {
        return Some(Invalid("nickname must be at most 50 characters"));
      }
      if req.phone != "" {
        err := CheckPhone(req.phone);
        if err.Some? {
          return;
        }
      }
      if req.email != "" {
        return EmailFormatError(req.email);
      }
      return None;
    }

    /** RegisterUser up to the hash: field checks, duplicate username, duplicate email, hashing. */
    method Admit(req: RegisterRequest, c: Crypto, usernameFault: bool, emailFault: bool) returns (r: Result<string>)
      ensures r == Admission(store.driver.users, req, c, usernameFault, emailFault)
    {
      var invalid := ValidateRegistration(req);
      if invalid.Some? {
        return Err(invalid.value);
      }
      var byName := store.GetUserByUsername(req.username, usernameFault);
      if byName.Err? {
        return Err(byName.error);
      }
      if byName.value.Some? {
        return Err(ConnectError(AlreadyExists, "username already exists"));
      }
      var byEmail := store.GetUserByEmail(req.email, emailFault);
      if byEmail.Err? {
        return Err(byEmail.error);
      }
      if byEmail.value.Some? {
        return Err(ConnectError(AlreadyExists, "email already exists"));
      }
      var hash := c.hashPassword(req.password);
      if hash.None? {
        return Err(ConnectError(Internal, "failed to hash password"));
      }
      return Ok(hash.value);
    }

    /**
     * RegisterUser: on success exactly one row is added, holding the request's
     * fields, the password's hash (never the password) and role "user", and it
     * is cached; every failure leaves the table and the cache as they were.
     */
    method RegisterUser(req: RegisterRequest, c: Crypto, now: int, usernameFault: bool, emailFault: bool, createFault: bool)
      returns (r: Result<ApiUser>)
      requires store.Valid()
      modifies store.driver`users, store.userCache`items
      ensures store.Valid()
      ensures var a := Admission(old(store.driver.users), req, c, usernameFault, emailFault);
        a.Err? ==> r == Err(a.error)
      ensures var a := Admission(old(store.driver.users), req, c, usernameFault, emailFault);
        a.Ok? && createFault ==> r == Err(DbError("create user"))
      ensures r.Err? ==> store.driver.users == old(store.driver.users) && store.userCache.items == old(store.userCache.items)
      ensures var a := Admission(old(store.driver.users), req, c, usernameFault, emailFault);
        r.Ok? ==> (a.Ok? && !createFault &&
          var row := NewUser(req, a.value).(id := |old(store.driver.users)| + 1, passwordExpires := now + PasswordLifetime,
                                            createdAt := now, updatedAt := now);
          r.value == ToApiUser(row) &&
          store.driver.users == old(store.driver.users) + [row] &&
          store.userCache.items == old(store.userCache.items)[UserKey(row.id) := Item(row, now + CacheConfig.defaultTtl)])
      ensures Admission(old(store.driver.users), req, c, usernameFault, emailFault).Ok? && !createFault ==> r.Ok?
    {
      var admitted := Admit(req, c, usernameFault, emailFault);
      if admitted.Err? {
        return Err(admitted.error);
      }
      var created := store.CreateUser(NewUser(req, admitted.value), now, createFault);
      if created.Err? {
        return Err(created.error);
      }
      return Ok(ToApiUser(created.value));
    }

    /**
     * GetUserProfile: the signed-in user's profile. A missing user surfaces as
     * the store's sql.ErrNoRows, passed on as it is.
     */
    method GetUserProfile(ctx: Context, now: int, fault: bool) returns (r: Result<ApiUser>)
      requires store.Valid()
      modifies store.userCache`items
      ensures store.Valid()
      ensures GetUserID(ctx) == 0 ==> r == Err(AuthenticationRequired) && store.userCache.items == old(store.userCache.items)
      ensures GetUserID(ctx) != 0 ==>
        var user := ResolveUser(old(store.userCache.items), store.driver.users, GetUserID(ctx), now, fault);
        r == (if user.Err? then Err(user.error) else Ok(ToApiUser(user.value))) &&
        store.userCache.items == AfterGet(old(store.userCache.items), UserKey(GetUserID(ctx)), now)
    {
      var userId := GetUserID(ctx);
      if userId == 0 {
        return Err(AuthenticationRequired);
      }
      var user := store.GetUser(FindById(userId), now, fault);
      if user.Err? {
        return Err(user.error);
      }
      return Ok(ToApiUser(user.value));
    }

    /** The update struct, filled field by field from the non-empty request fields. */
    static method BuildProfileUpdate(id: int, req: UpdateProfileRequest) returns (update: UpdateUser)
      ensures update == ProfileUpdate(id, req)
    {
      update := NoChange(id);
      if req.nickname != "" {
        update := update.(nickname := Some(req.nickname));
      }
      if req.phone != "" {
        update := update.(phone := Some(req.phone));
      }
      if req.email != "" {
        update := update.(email := Some(req.email));
      }
    }

    /**
     * UpdateUserProfile: after the checks, only the given fields are written
     * and the user's cache entry is dropped; a user that is gone by then is
     * NotFound. A failed UPDATE (`fault`) writes nothing; a failed re-read
     * (`readFault`) comes after the row was written, and both are Internal.
     */
    method UpdateUserProfile(ctx: Context, req: UpdateProfileRequest, now: int, fault: bool, readFault: bool)
      returns (r: Result<ApiUser>)
      requires store.Valid()
      modifies store.driver`users, store.userCache`items
      ensures store.Valid()
      ensures GetUserID(ctx) == 0 ==> r == Err(AuthenticationRequired)
      ensures GetUserID(ctx) != 0 && ProfileError(req).Some? ==> r == Err(ProfileError(req).value)
      ensures GetUserID(ctx) == 0 || ProfileError(req).Some? ==>
        store.driver.users == old(store.driver.users) && store.userCache.items == old(store.userCache.items)
      ensures GetUserID(ctx) != 0 && ProfileError(req).None? ==>
        store.userCache.items == old(store.userCache.items) - {UserKey(GetUserID(ctx))}
      ensures GetUserID(ctx) != 0 && ProfileError(req).None? && (fault || readFault) ==>
        r == Err(ConnectError(Internal, "failed to update user profile"))
      ensures GetUserID(ctx) != 0 && ProfileError(req).None? && (fault || !HasLiveUser(old(store.driver.users), GetUserID(ctx))) ==>
        store.driver.users == old(store.driver.users)
      ensures GetUserID(ctx) != 0 && ProfileError(req).None? && !fault && !readFault && !HasLiveUser(old(store.driver.users), GetUserID(ctx)) ==>
        r == Err(ConnectError(NotFound, "user not found"))
      ensures var id := GetUserID(ctx);
        id != 0 && ProfileError(req).None? && !fault && HasLiveUser(old(store.driver.users), id) ==>
          var row := ApplyUserUpdate(old(store.driver.users)[id - 1], ProfileUpdate(id, req), now);
          store.driver.users == old(store.driver.users)[id - 1 := row] &&
          (!readFault ==> r == Ok(ToApiUser(row)))
    {
      var userId := GetUserID(ctx);
      if userId == 0 {
        return Err(AuthenticationRequired);
      }
      var invalid := ValidateProfile(req);
      if invalid.Some? {
        return Err(invalid.value);
      }
      var update := BuildProfileUpdate(userId, req);
      var updated := store.UpdateUser(update, now, fault, readFault);
      FindByIdIsRowLookup(store.driver.users, userId);
      r := UpdatedReply(updated, "failed to update user profile");
    }

    /**
     * ChangePassword: after the checks and the old password's verification,
     * only the password (and with it the expiry) is rewritten.
     */
    method ChangePassword(ctx: Context, req: ChangePasswordRequest, c: Crypto, now: int,
                          userFault: bool, updateFault: bool, updateReadFault: bool)
      returns (r: Result<ApiUser>)
      requires store.Valid()
      modifies store.driver`users, store.userCache`items
      ensures store.Valid()
      ensures GetUserID(ctx) == 0 ==> r == Err(AuthenticationRequired)
      ensures GetUserID(ctx) != 0 && PasswordChangeError(req).Some? ==> r == Err(PasswordChangeError(req).value)
      ensures r.Err? && !updateReadFault ==> store.driver.users == old(store.driver.users)
      ensures updateReadFault ==> r.Err?
      ensures var id := GetUserID(ctx);
        var user := ResolveUser(old(store.userCache.items), old(store.driver.users), id, now, userFault);
        id != 0 && PasswordChangeError(req).None? && user.Ok? && c.checkPassword(req.oldPassword, user.value.password) &&
        c.hashPassword(req.newPassword).Some? && !updateFault && updateReadFault ==>
          HasLiveUser(old(store.driver.users), id) &&
          var row := ApplyUserUpdate(old(store.driver.users)[id - 1], PasswordOnly(id, c.hashPassword(req.newPassword).value), now);
          r == Err(ConnectError(Internal, "failed to update password")) &&
          store.driver.users == old(store.driver.users)[id - 1 := row] &&
          store.userCache.items == old(store.userCache.items) - {UserKey(id)}
      ensures var id := GetUserID(ctx);
        var user := ResolveUser(old(store.userCache.items), old(store.driver.users), id, now, userFault);
        id != 0 && PasswordChangeError(req).None? && user.Ok? ==>
          (!c.checkPassword(req.oldPassword, user.value.password) ==>
             r == Err(ConnectError(Unauthenticated, "old password is incorrect"))) &&
          (c.checkPassword(req.oldPassword, user.value.password) && c.hashPassword(req.newPassword).None? ==>
             r == Err(ConnectError(Internal, "failed to hash new password"))) &&
          (c.checkPassword(req.oldPassword, user.value.password) && c.hashPassword(req.newPassword).Some? && updateFault ==>
             r == Err(ConnectError(Internal, "failed to update password")))
      ensures var id := GetUserID(ctx);
        var user := ResolveUser(old(store.userCache.items), old(store.driver.users), id, now, userFault);
        id != 0 && PasswordChangeError(req).None? && user.Err? ==> r == Err(ConnectError(Internal, "failed to get user"))
      ensures var id := GetUserID(ctx);
        r.Ok? ==> (HasLiveUser(old(store.driver.users), id) &&
          c.checkPassword(req.oldPassword, old(store.driver.users)[id - 1].password) &&
          c.hashPassword(req.newPassword).Some? &&
          var row := ApplyUserUpdate(old(store.driver.users)[id - 1], PasswordOnly(id, c.hashPassword(req.newPassword).value), now);
          r == Ok(ToApiUser(row)) &&
          store.driver.users == old(store.driver.users)[id - 1 := row] &&
          store.userCache.items == old(store.userCache.items) - {UserKey(id)})
    {
      var userId := GetUserID(ctx);
      if userId == 0 {
        return Err(AuthenticationRequired);
      }
      if req.oldPassword == "" {
        return Err(Invalid("old password is required"));
      }
      if req.newPassword == "" {
        return Err(Invalid("new password is required"));
      }
      if Utf8Len(req.newPassword) < 6 {
        return Err(Invalid("new password must be at least 6 characters"));
      }
      r := ChangeVerified(userId, req, c, now, userFault, updateFault, updateReadFault);
    }

    /** ChangePassword once the caller is known and the arguments are acceptable. */
    method ChangeVerified(id: int, req: ChangePasswordRequest, c: Crypto, now: int,
                          userFault: bool, updateFault: bool, updateReadFault: bool)
      returns (r: Result<ApiUser>)
      requires store.Valid()
      modifies store.driver`users, store.userCache`items
      ensures store.Valid()
      ensures r.Err? && !updateReadFault ==> store.driver.users == old(store.driver.users)
      ensures updateReadFault ==> r.Err?
      ensures var user := ResolveUser(old(store.userCache.items), old(store.driver.users), id, now, userFault);
        user.Ok? && c.checkPassword(req.oldPassword, user.value.password) &&
        c.hashPassword(req.newPassword).Some? && !updateFault && updateReadFault ==>
          HasLiveUser(old(store.driver.users), id) &&
          var row := ApplyUserUpdate(old(store.driver.users)[id - 1], PasswordOnly(id, c.hashPassword(req.newPassword).value), now);
          r == Err(ConnectError(Internal, "failed to update password")) &&
          store.driver.users == old(store.driver.users)[id - 1 := row] &&
          store.userCache.items == old(store.userCache.items) - {UserKey(id)}
      ensures var user := ResolveUser(old(store.userCache.items), old(store.driver.users), id, now, userFault);
        user.Ok? ==>
          (!c.checkPassword(req.oldPassword, user.value.password) ==>
             r == Err(ConnectError(Unauthenticated, "old password is incorrect"))) &&
          (c.checkPassword(req.oldPassword, user.value.password) && c.hashPassword(req.newPassword).None? ==>
             r == Err(ConnectError(Internal, "failed to hash new password"))) &&
          (c.checkPassword(req.oldPassword, user.value.password) && c.hashPassword(req.newPassword).Some? && updateFault ==>
             r == Err(ConnectError(Internal, "failed to update password")))
      ensures ResolveUser(old(store.userCache.items), old(store.driver.users), id, now, userFault).Err? ==>
        r == Err(ConnectError(Internal, "failed to get user"))
      ensures r.Ok? ==> (HasLiveUser(old(store.driver.users), id) &&
          c.checkPassword(req.oldPassword, old(store.driver.users)[id - 1].password) &&
          c.hashPassword(req.newPassword).Some? &&
          var row := ApplyUserUpdate(old(store.driver.users)[id - 1], PasswordOnly(id, c.hashPassword(req.newPassword).value), now);
          r == Ok(ToApiUser(row)) &&
          store.driver.users == old(store.driver.users)[id - 1 := row] &&
          store.userCache.items == old(store.userCache.items) - {UserKey(id)})
    {
      var user := store.GetUser(FindById(id), now, userFault);
      assert user == ResolveUser(old(store.userCache.items), old(store.driver.users), id, now, userFault);
      if user.Err? {
        return Err(ConnectError(Internal, "failed to get user"));
      }
      ResolvedUserIsLive(old(store.userCache.items), store.driver.users, id, now, userFault);
      r := Rewrite(id, user.value, req, c, now, updateFault, updateReadFault);
      DeleteAfterGet(old(store.userCache.items), UserKey(id), now);
    }

    /** ChangePassword once the stored user is in hand: verify the old password, hash the new one, write it. */
    method Rewrite(id: int, user: User, req: ChangePasswordRequest, c: Crypto, now: int, updateFault: bool, updateReadFault: bool)
      returns (r: Result<ApiUser>)
      requires store.Valid() && HasLiveUser(store.driver.users, id) && store.driver.users[id - 1] == user
      modifies store.driver`users, store.userCache`items
      ensures store.Valid()
      ensures !c.checkPassword(req.oldPassword, user.password) ==>
        r == Err(ConnectError(Unauthenticated, "old password is incorrect"))
      ensures c.checkPassword(req.oldPassword, user.password) && c.hashPassword(req.newPassword).None? ==>
        r == Err(ConnectError(Internal, "failed to hash new password"))
      ensures c.checkPassword(req.oldPassword, user.password) && c.hashPassword(req.newPassword).Some? && updateFault ==>
        r == Err(ConnectError(Internal, "failed to update password"))
      ensures store.userCache.items ==
        if c.checkPassword(req.oldPassword, user.password) && c.hashPassword(req.newPassword).Some?
        then old(store.userCache.items) - {UserKey(id)} else old(store.userCache.items)
      ensures r.Err? && !updateReadFault ==> store.driver.users == old(store.driver.users)
      ensures updateReadFault ==> r.Err?
      ensures c.checkPassword(req.oldPassword, user.password) && c.hashPassword(req.newPassword).Some? && !updateFault && updateReadFault ==>
          r == Err(ConnectError(Internal, "failed to update password")) &&
          store.driver.users == old(store.driver.users)[id - 1 := ApplyUserUpdate(user, PasswordOnly(id, c.hashPassword(req.newPassword).value), now)]
      ensures r.Ok? ==> (c.checkPassword(req.oldPassword, user.password) && c.hashPassword(req.newPassword).Some? &&
          var row := ApplyUserUpdate(user, PasswordOnly(id, c.hashPassword(req.newPassword).value), now);
          r == Ok(ToApiUser(row)) &&
          store.driver.users == old(store.driver.users)[id - 1 := row] &&
          store.userCache.items == old(store.userCache.items) - {UserKey(id)})
    {
      if !c.checkPassword(req.oldPassword, user.password) {
        return Err(ConnectError(Unauthenticated, "old password is incorrect"));
      }
      var hash := c.hashPassword(req.newPassword);
      if hash.None? {
        return Err(ConnectError(Internal, "failed to hash new password"));
      }
      var updated := store.UpdateUser(PasswordOnly(id, hash.value), now, updateFault, updateReadFault);
      FindByIdIsRowLookup(store.driver.users, id);
      r := UpdatedReply(updated, "failed to update password");
    }
  }

  /** A profile read never reports NotFound: a missing user is the store's sql.ErrNoRows. */
  lemma MissingProfileIsNoRows(items: map<string, Item<User>>, rows: seq<User>, id: int, now: int)
    requires CoherentCache(items, rows)
    requires forall i :: 0 <= i < |rows| ==> rows[i].id == i + 1
    requires !HasLiveUser(rows, id)
    ensures ResolveUser(items, rows, id, now, false) == Err(ErrNoRows)
  {
    if ResolveUser(items, rows, id, now, false).Ok? {
      ResolvedUserIsLive(items, rows, id, now, false);
    }
    FindByIdIsRowLookup(rows, id);
  }

  lemma {:induction false} SelectUsersAppend(rows: seq<User>, u: User, find: FindUser)
    ensures SelectUsers(rows + [u], find) == SelectUsers(rows, find) + SelectUsers([u], find)
  {
    if rows != [] {
      assert (rows + [u])[1..] == rows[1..] + [u];
      SelectUsersAppend(rows[1..], u, find);
    }
  }

  /** A freshly registered user can log in at once with the password chosen at registration. */
  lemma RegisteredUserCanLogIn(users: seq<User>, req: RegisterRequest, c: Crypto, now: int, later: int)
    requires CryptoLaws(c)
    requires Admission(users, req, c, false, false).Ok?
    requires now <= later <= now + PasswordLifetime
    ensures var row := NewUser(req, Admission(users, req, c, false, false).value).(id := |users| + 1,
                          passwordExpires := now + PasswordLifetime, createdAt := now, updatedAt := now);
      AuthService.LoginGate(users + [row], c, AuthService.LoginRequest(req.username, req.password), later, false) == Ok(row)
  {
    var row := NewUser(req, Admission(users, req, c, false, false).value).(id := |users| + 1,
                 passwordExpires := now + PasswordLifetime, createdAt := now, updatedAt := now);
    SelectUsersAppend(users, row, ByUsername(req.username));
    assert SelectUsers([row], ByUsername(req.username)) == [row];
  }
}
