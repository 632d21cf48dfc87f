/**
 * The database as the drivers see it: the users and refresh_tokens tables with
 * the SQLite driver's semantics (store/db/sqlite/user.go, refresh_token.go) and
 * the instance settings table with the MySQL driver's semantics
 * (store/db/mysql/instance_setting.go). Each table is a sequence in rowid order,
 * so "the first row" of a query is well defined. A `fault` argument stands for
 * the database reporting an error on that call.
 */
module Database {
  import opened Wrappers
  import opened Errors
  import opened StoreModel

  /** now.AddDate(0, 0, 90), taken as 90 days of 86400 seconds. */
  const PasswordLifetime: int := 90 * 86400

  function DbError(what: string): Error {
    PlainError("failed to " + what)
  }

  predicate Live(u: User) {
    u.deletedAt.None?
  }

  /** The WHERE clause of ListUsers (with the Role filter its callers use). */
  predicate MatchesFind(u: User, find: FindUser) {
    Live(u) &&
    (find.id.Some? ==> u.id == find.id.value) &&
    (find.username.Some? ==> u.username == find.username.value) &&
    (find.email.Some? ==> u.email == find.email.value) &&
    (find.role.Some? ==> u.role == find.role.value)
  }

  /** The rows ListUsers returns, in table order. */
  function SelectUsers(rows: seq<User>, find: FindUser): (r: seq<User>)
    ensures |r| <= |rows|
    ensures forall u :: u in r ==> u in rows && MatchesFind(u, find)
  {
    if rows == [] then []
    else (if MatchesFind(rows[0], find) then [rows[0]] else []) + SelectUsers(rows[1..], find)
  }

  lemma {:induction false} SelectUsersComplete(rows: seq<User>, find: FindUser, u: User)
    requires u in rows && MatchesFind(u, find)
    ensures u in SelectUsers(rows, find)
  {
    if rows[0] != u {
      SelectUsersComplete(rows[1..], find, u);
    }
  }

  /** The first row a single-row query returns, or None for sql.ErrNoRows. */
  function FirstUser(rows: seq<User>, find: FindUser): Option<User> {
    var l := SelectUsers(rows, find);
    if l == [] then None else Some(l[0])
  }

  function ByUsername(name: string): FindUser {
    FindUser(None, Some(name), None, None)
  }

  function ByEmail(email: string): FindUser {
    FindUser(None, None, Some(email), None)
  }

  /**
   * The row after UPDATE users SET ...: updated_at is always bumped, every
   * present field is written, a new password also resets password_expires,
   * and an explicit PasswordExpires (assigned later in the statement) wins.
   * UpdateUser.UpdatedAt is never written.
   */
  function ApplyUserUpdate(u: User, upd: UpdateUser, now: int): (r: User)
    ensures r.id == u.id && r.createdAt == u.createdAt && r.deletedAt == u.deletedAt
    ensures r.updatedAt == now
  {
    var expires :=
      if upd.passwordExpires.Some? then upd.passwordExpires.value
      else if upd.password.Some? then now + PasswordLifetime
      else u.passwordExpires;
    u.(updatedAt := now,
       username := upd.username.GetOr(u.username),
       nickname := upd.nickname.GetOr(u.nickname),
       password := upd.password.GetOr(u.password),
       phone := upd.phone.GetOr(u.phone),
       email := upd.email.GetOr(u.email),
       role := upd.role.GetOr(u.role),
       passwordExpires := expires)
  }

  /** An update with only an ID touches nothing but updated_at. */
  lemma NoChangeOnlyBumpsUpdatedAt(u: User, now: int)
    ensures ApplyUserUpdate(u, NoChange(u.id), now) == u.(updatedAt := now)
  {
  }

  predicate LiveToken(t: RefreshToken) {
    t.deletedAt.None?
  }

  predicate MatchesTokenFind(t: RefreshToken, find: FindRefreshToken) {
    LiveToken(t) &&
    (find.id.Some? ==> t.id == find.id.value) &&
    (find.userId.Some? ==> t.userId == find.userId.value) &&
    (find.token.Some? ==> t.token == find.token.value)
  }

  function SelectTokens(rows: seq<RefreshToken>, find: FindRefreshToken): (r: seq<RefreshToken>)
    ensures |r| <= |rows|
    ensures forall t :: t in r ==> t in rows && MatchesTokenFind(t, find)
  {
    if rows == [] then []
    else (if MatchesTokenFind(rows[0], find) then [rows[0]] else []) + SelectTokens(rows[1..], find)
  }

  function FirstToken(rows: seq<RefreshToken>, find: FindRefreshToken): Option<RefreshToken> {
    var l := SelectTokens(rows, find);
    if l == [] then None else Some(l[0])
  }

  function ByToken(token: string): FindRefreshToken {
    FindRefreshToken(None, None, Some(token))
  }

  function ByTokenId(id: int): FindRefreshToken {
    FindRefreshToken(Some(id), None, None)
  }

  /** The first live row holding token comes before any other live row holding it. */
  lemma {:induction false} FirstTokenIsEarliest(rows: seq<RefreshToken>, token: string, i: int)
    requires 0 <= i < |rows| && LiveToken(rows[i]) && rows[i].token == token
    requires forall j :: 0 <= j < i ==> !(LiveToken(rows[j]) && rows[j].token == token)
    ensures FirstToken(rows, ByToken(token)) == Some(rows[i])
  {
    if i > 0 {
      FirstTokenIsEarliest(rows[1..], token, i - 1);
    }
  }

  /** The settings rows ListInstanceSettings returns: all of them, or those with the given name. */
  function SelectSettings(rows: seq<InstanceSettingRow>, name: string): (r: seq<InstanceSettingRow>)
    ensures |r| <= |rows|
    ensures forall s :: s in r ==> s in rows && (name != "" ==> s.name == name)
  {
    if rows == [] then []
    else (if name == "" || rows[0].name == name then [rows[0]] else []) + SelectSettings(rows[1..], name)
  }

  /** Names are the table's primary key. */
  predicate UniqueNames(rows: seq<InstanceSettingRow>) {
    forall i, j :: 0 <= i < j < |rows| ==> rows[i].name != rows[j].name
  }

  /** The position of the row with the given name, or -1. */
  function IndexOfName(rows: seq<InstanceSettingRow>, name: string): (i: int)
    ensures -1 <= i < |rows|
    ensures i >= 0 ==> rows[i].name == name
    ensures i < 0 ==> forall k :: 0 <= k < |rows| ==> rows[k].name != name
  {
    if rows == [] then -1
    else if rows[|rows| - 1].name == name then |rows| - 1
    else IndexOfName(rows[..|rows| - 1], name)
  }

  /** INSERT ... ON DUPLICATE KEY UPDATE value, description (name is the key). */
  function UpsertRow(rows: seq<InstanceSettingRow>, row: InstanceSettingRow): (r: seq<InstanceSettingRow>)
  {
    var i := IndexOfName(rows, row.name);
    if i < 0 then rows + [row] else rows[i := row]
  }

  /** After an upsert the row is stored under its name, names stay unique and other names keep their rows. */
  lemma UpsertSpec(rows: seq<InstanceSettingRow>, row: InstanceSettingRow)
    requires UniqueNames(rows)
    ensures var r := UpsertRow(rows, row);
      UniqueNames(r) &&
      (row.name != "" ==> SelectSettings(r, row.name) == [row]) &&
      (forall s :: s in rows && s.name != row.name ==> s in r) &&
      (forall s :: s in r ==> s == row || (s in rows && s.name != row.name))
  {
    var r := UpsertRow(rows, row);
    var i := IndexOfName(rows, row.name);
    if i < 0 { assert r[|rows|] == row; } else { assert r[i] == row; }
    forall s | s in rows && s.name != row.name ensures s in r {
      var k :| 0 <= k < |rows| && rows[k] == s;
      assert r[k] == s;
    }
    forall s | s in r ensures s == row || (s in rows && s.name != row.name) {
      var k :| 0 <= k < |r| && r[k] == s;
      if s != row {
        assert rows[k] == s;
        if i >= 0 { assert k != i; assert k < i || i < k; }
      }
    }
    if row.name != "" {
      UniqueSelect(r, row);
    }
  }

  lemma {:induction false} UniqueSelect(r: seq<InstanceSettingRow>, row: InstanceSettingRow)
    requires UniqueNames(r) && row in r && row.name != ""
    requires forall s :: s in r ==> s == row || s.name != row.name
    ensures SelectSettings(r, row.name) == [row]
  {
    if r[0] == row {
      assert forall s :: s in r[1..] ==> s.name != row.name by {
        forall s | s in r[1..] ensures s.name != row.name {
          var k :| 0 <= k < |r[1..]| && r[1..][k] == s;
          assert r[0].name != r[k + 1].name;
        }
      }
      NoneSelected(r[1..], row.name);
    } else {
      assert r[0].name != row.name;
      UniqueSelect(r[1..], row);
    }
  }

  lemma {:induction false} NoneSelected(r: seq<InstanceSettingRow>, name: string)
    requires name != "" || r == []
    requires forall s :: s in r ==> s.name != name
    ensures SelectSettings(r, name) == []
  {
    if r != [] {
      NoneSelected(r[1..], name);
    }
  }
  class Driver {
    var users: seq<User>
    var tokens: seq<RefreshToken>
    var settings: seq<InstanceSettingRow>
    var closed: bool

    /** Row i of each auto-increment table has id i + 1; setting names are unique. */
    ghost predicate Valid()
      reads this
    {
      (forall i :: 0 <= i < |users| ==> users[i].id == i + 1) &&
      (forall i :: 0 <= i < |tokens| ==> tokens[i].id == i + 1) &&
      UniqueNames(settings)
    }

    constructor ()
      ensures Valid() && users == [] && tokens == [] && settings == [] && !closed
    {
      users, tokens, settings, closed := [], [], [], false;
    }

    /** CreateUser: password_expires = now + 90 days, created_at = updated_at = now, ID from the insert. */
    method CreateUser(create: User, now: int, fault: bool) returns (r: Result<User>)
      requires Valid()
      modifies this`users
      ensures Valid()
      ensures fault ==> r == Err(DbError("create user")) && users == old(users)
      ensures !fault ==>
        r == Ok(create.(id := |old(users)| + 1, passwordExpires := now + PasswordLifetime,
                        createdAt := now, updatedAt := now, deletedAt := None)) &&
        users == old(users) + [r.value]
    {
      if fault {
        return Err(DbError("create user"));
      }
      var user := create.(id := |users| + 1, passwordExpires := now + PasswordLifetime,
                          createdAt := now, updatedAt := now, deletedAt := None);
      users := users + [user];
      return Ok(user);
    }

    /**
     * UpdateUser runs two statements: the UPDATE of the live row with the
     * given id (`fault`: it fails and nothing is written), then a re-read by id
     * (`readFault`: it fails after the row was written). A missing or
     * soft-deleted id re-reads as (nil, nil).
     */
    method UpdateUser(upd: UpdateUser, now: int, fault: bool, readFault: bool) returns (r: Result<Option<User>>)
      requires Valid()
      modifies this`users
      ensures Valid()
      ensures fault ==> r == Err(DbError("update user")) && users == old(users)
      ensures !fault && readFault ==> r == Err(PlainError("failed to get user by id"))
      ensures !fault && !readFault ==> r == Ok(FirstUser(users, FindById(upd.id)))
      ensures !fault && !HasLiveUser(old(users), upd.id) ==> users == old(users) && (!readFault ==> r == Ok(None))
      ensures !fault && HasLiveUser(old(users), upd.id) ==>
        users == old(users)[upd.id - 1 := ApplyUserUpdate(old(users)[upd.id - 1], upd, now)]
    {
      if fault {
        return Err(DbError("update user"));
      }
      if HasLiveUser(users, upd.id) {
        users := users[upd.id - 1 := ApplyUserUpdate(users[upd.id - 1], upd, now)];
      }
      if readFault {
        return Err(PlainError("failed to get user by id"));
      }
      FindByIdIsRowLookup(users, upd.id);
      return Ok(FirstUser(users, FindById(upd.id)));
    }

    method ListUsers(find: FindUser, fault: bool) returns (r: Result<seq<User>>)
      ensures r == if fault then Err(DbError("list users")) else Ok(SelectUsers(users, find))
    {
      if fault {
        return Err(DbError("list users"));
      }
      return Ok(SelectUsers(users, find));
    }

    /** DeleteUser is a soft delete of a not-yet-deleted row. */
    method DeleteUser(del: DeleteUser, now: int, fault: bool) returns (err: Option<Error>)
      requires Valid()
      modifies this`users
      ensures Valid()
      ensures fault ==> err == Some(DbError("delete user")) && users == old(users)
      ensures !fault ==> err == None && |users| == |old(users)|
      ensures !fault ==> forall i :: 0 <= i < |users| ==>
        users[i] == if old(users)[i].id == del.id && Live(old(users)[i]) then old(users)[i].(deletedAt := Some(now)) else old(users)[i]
    {
      if fault {
        return Some(DbError("delete user"));
      }
      if 1 <= del.id <= |users| && Live(users[del.id - 1]) {
        users := users[del.id - 1 := users[del.id - 1].(deletedAt := Some(now))];
      }
      return None;
    }

    /** GetUserByID, GetUserByUsername, GetUserByEmail: (nil, nil) when no live row matches. */
    method GetUser(find: FindUser, fault: bool) returns (r: Result<Option<User>>)
      ensures r == if fault then Err(DbError("get user")) else Ok(FirstUser(users, find))
    {
      if fault {
        return Err(DbError("get user"));
      }
      return Ok(FirstUser(users, find));
    }

    /** CreateRefreshToken: stored unrevoked, returning the input's UserID, Token and ExpiresAt. */
    method CreateRefreshToken(create: CreateRefreshToken, now: int, fault: bool) returns (r: Result<RefreshToken>)
      requires Valid()
      modifies this`tokens
      ensures Valid()
      ensures fault ==> r == Err(DbError("create refresh token")) && tokens == old(tokens)
      ensures !fault ==>
        r == Ok(RefreshToken(|old(tokens)| + 1, create.userId, create.token, create.expiresAt, false, now, now, None)) &&
        tokens == old(tokens) + [r.value]
    {
      if fault {
        return Err(DbError("create refresh token"));
      }
      var t := RefreshToken(|tokens| + 1, create.userId, create.token, create.expiresAt, false, now, now, None);
      tokens := tokens + [t];
      return Ok(t);
    }

    /**
     * UpdateRefreshToken writes whatever Revoked holds (false included); None
     * only bumps updated_at. As with UpdateUser, `fault` fails the UPDATE and
     * `readFault` fails the re-read that follows it.
     */
    method UpdateRefreshToken(upd: UpdateRefreshToken, now: int, fault: bool, readFault: bool) returns (r: Result<Option<RefreshToken>>)
      requires Valid()
      modifies this`tokens
      ensures Valid()
      ensures fault ==> r == Err(DbError("update refresh token")) && tokens == old(tokens)
      ensures !fault && readFault ==> r == Err(PlainError("failed to get refresh token by id"))
      ensures !fault && !readFault ==> r == Ok(FirstToken(tokens, ByTokenId(upd.id)))
      ensures !fault && !HasLiveToken(old(tokens), upd.id) ==> tokens == old(tokens) && (!readFault ==> r == Ok(None))
      ensures !fault && HasLiveToken(old(tokens), upd.id) ==>
        tokens == old(tokens)[upd.id - 1 := old(tokens)[upd.id - 1].(updatedAt := now, revoked := upd.revoked.GetOr(old(tokens)[upd.id - 1].revoked))]
    {
      if fault {
        return Err(DbError("update refresh token"));
      }
      if HasLiveToken(tokens, upd.id) {
        var i := upd.id - 1;
        tokens := tokens[i := tokens[i].(updatedAt := now, revoked := upd.revoked.GetOr(tokens[i].revoked))];
      }
      if readFault {
        return Err(PlainError("failed to get refresh token by id"));
      }
      TokenByIdIsRowLookup(tokens, upd.id);
      return Ok(FirstToken(tokens, ByTokenId(upd.id)));
    }

    method ListRefreshTokens(find: FindRefreshToken, fault: bool) returns (r: Result<seq<RefreshToken>>)
      ensures r == if fault then Err(DbError("list refresh tokens")) else Ok(SelectTokens(tokens, find))
    {
      if fault {
        return Err(DbError("list refresh tokens"));
      }
      return Ok(SelectTokens(tokens, find));
    }

    /** DeleteRefreshToken is a soft delete. */
    method DeleteRefreshToken(del: DeleteRefreshToken, now: int, fault: bool) returns (err: Option<Error>)
      requires Valid()
      modifies this`tokens
      ensures Valid()
      ensures fault ==> err == Some(DbError("delete refresh token")) && tokens == old(tokens)
      ensures !fault ==> err == None && |tokens| == |old(tokens)|
      ensures !fault ==> forall i :: 0 <= i < |tokens| ==>
        tokens[i] == if old(tokens)[i].id == del.id && LiveToken(old(tokens)[i]) then old(tokens)[i].(deletedAt := Some(now)) else old(tokens)[i]
    {
      if fault {
        return Some(DbError("delete refresh token"));
      }
      if 1 <= del.id <= |tokens| && LiveToken(tokens[del.id - 1]) {
        tokens := tokens[del.id - 1 := tokens[del.id - 1].(deletedAt := Some(now))];
      }
      return None;
    }

    /** GetRefreshToken: the first live row with that token, (nil, nil) for an unknown or deleted one. */
    method GetRefreshToken(token: string, fault: bool) returns (r: Result<Option<RefreshToken>>)
      ensures r == if fault then Err(DbError("get refresh token")) else Ok(FirstToken(tokens, ByToken(token)))
    {
      if fault {
        return Err(DbError("get refresh token"));
      }
      return Ok(FirstToken(tokens, ByToken(token)));
    }

    /** UpsertInstanceSetting returns its input unchanged on success. */
    method UpsertInstanceSetting(row: InstanceSettingRow, fault: bool) returns (r: Result<InstanceSettingRow>)
      requires Valid()
      modifies this`settings
      ensures Valid()
      ensures fault ==> r == Err(DbError("upsert instance setting")) && settings == old(settings)
      ensures !fault ==> r == Ok(row) && settings == UpsertRow(old(settings), row)
    {
      if fault {
        return Err(DbError("upsert instance setting"));
      }
      UpsertSpec(settings, row);
      settings := UpsertRow(settings, row);
      return Ok(row);
    }

    /** ListInstanceSettings: an empty (non-nil) list when nothing matches. */
    method ListInstanceSettings(find: FindInstanceSetting, fault: bool) returns (r: Result<seq<InstanceSettingRow>>)
      ensures r == if fault then Err(DbError("list instance settings")) else Ok(SelectSettings(settings, find.name))
    {
      if fault {
        return Err(DbError("list instance settings"));
      }
      return Ok(SelectSettings(settings, find.name));
    }

    /** DeleteInstanceSetting removes the row with that name (if any). */
    method DeleteInstanceSetting(del: DeleteInstanceSetting, fault: bool) returns (err: Option<Error>)
      requires Valid()
      modifies this`settings
      ensures Valid()
      ensures fault ==> err == Some(DbError("delete instance setting")) && settings == old(settings)
      ensures !fault ==> err == None && settings == RemoveSetting(old(settings), del.name)
    {
      if fault {
        return Some(DbError("delete instance setting"));
      }
      RemoveKeepsNamesUnique(settings, del.name);
      settings := RemoveSetting(settings, del.name);
      return None;
    }

    method Ping(fault: bool) returns (err: Option<Error>)
      ensures err == if fault then Some(DbError("ping database")) else None
    {
      if fault {
        return Some(DbError("ping database"));
      }
      return None;
    }

    /** db.Close: the handle is closed either way; a failure to close is reported. */
    method Close(fault: bool) returns (err: Option<Error>)
      modifies this`closed
      ensures closed
      ensures err == if fault then Some(DbError("close database")) else None
    {
      closed := true;
      if fault {
        return Some(DbError("close database"));
      }
      return None;
    }
  }

  /** DELETE FROM system_setting WHERE name = ?: every row with another name stays, in order. */
  function RemoveSetting(rows: seq<InstanceSettingRow>, name: string): (r: seq<InstanceSettingRow>)
    ensures forall s :: s in r <==> s in rows && s.name != name
  {
    if rows == [] then []
    else (if rows[0].name == name then [] else [rows[0]]) + RemoveSetting(rows[1..], name)
  }

  lemma {:induction false} RemoveKeepsNamesUnique(rows: seq<InstanceSettingRow>, name: string)
    requires UniqueNames(rows)
    ensures UniqueNames(RemoveSetting(rows, name))
  {
    if rows != [] {
      RemoveKeepsNamesUnique(rows[1..], name);
      var tail := RemoveSetting(rows[1..], name);
      if rows[0].name != name {
        forall s | s in tail ensures s.name != rows[0].name {
          var k :| 0 <= k < |rows[1..]| && rows[1..][k] == s;
          assert rows[0].name != rows[k + 1].name;
        }
        var r := RemoveSetting(rows, name);
        assert r == [rows[0]] + tail;
        forall i, j | 0 <= i < j < |r| ensures r[i].name != r[j].name {
          if i == 0 {
            assert r[j] == tail[j - 1];
            assert r[j] in tail;
          } else {
            assert r[i] == tail[i - 1] && r[j] == tail[j - 1];
          }
        }
      } else {
        assert RemoveSetting(rows, name) == tail;
      }
    }
  }

  /** With names unique, a lookup by a non-empty name finds at most one row. */
  lemma {:induction false} AtMostOneRowPerName(rows: seq<InstanceSettingRow>, name: string)
    requires UniqueNames(rows) && name != ""
    ensures |SelectSettings(rows, name)| <= 1
    ensures forall s :: s in SelectSettings(rows, name) ==> s in rows && s.name == name
  {
    if rows != [] {
      assert UniqueNames(rows[1..]) by {
        forall i, j | 0 <= i < j < |rows[1..]| ensures rows[1..][i].name != rows[1..][j].name {
          assert rows[i + 1].name != rows[j + 1].name;
        }
      }
      AtMostOneRowPerName(rows[1..], name);
      if rows[0].name == name {
        forall s | s in rows[1..] ensures s.name != name {
          var k :| 0 <= k < |rows[1..]| && rows[1..][k] == s;
          assert rows[0].name != rows[k + 1].name;
        }
        NoneSelected(rows[1..], name);
      }
    }
  }

  /** The database keeps no row with a deleted name. */
  lemma DeletedNameIsGone(rows: seq<InstanceSettingRow>, name: string)
    requires name != ""
    ensures SelectSettings(RemoveSetting(rows, name), name) == []
  {
    NoneSelected(RemoveSetting(rows, name), name);
  }

  predicate HasLiveUser(rows: seq<User>, id: int) {
    1 <= id <= |rows| && Live(rows[id - 1])
  }

  predicate HasLiveToken(rows: seq<RefreshToken>, id: int) {
    1 <= id <= |rows| && LiveToken(rows[id - 1])
  }

  /** With row i holding id i + 1, looking a user up by id is indexing the table. */
  lemma {:induction false} FindByIdIsRowLookup(rows: seq<User>, id: int)
    requires forall i :: 0 <= i < |rows| ==> rows[i].id == i + 1
    ensures FirstUser(rows, FindById(id)) == if HasLiveUser(rows, id) then Some(rows[id - 1]) else None
  {
    FindByIdAt(rows, id, 0);
  }

  lemma {:induction false} FindByIdAt(rows: seq<User>, id: int, base: nat)
    requires forall i :: 0 <= i < |rows| ==> rows[i].id == base + i + 1
    ensures FirstUser(rows, FindById(id)) ==
      if base + 1 <= id <= base + |rows| && Live(rows[id - base - 1]) then Some(rows[id - base - 1]) else None
    decreases |rows|
  {
    if rows != [] {
      FindByIdAt(rows[1..], id, base + 1);
    }
  }

  lemma {:induction false} TokenByIdIsRowLookup(rows: seq<RefreshToken>, id: int)
    requires forall i :: 0 <= i < |rows| ==> rows[i].id == i + 1
    ensures FirstToken(rows, ByTokenId(id)) == if HasLiveToken(rows, id) then Some(rows[id - 1]) else None
  {
    TokenByIdAt(rows, id, 0);
  }

  lemma {:induction false} TokenByIdAt(rows: seq<RefreshToken>, id: int, base: nat)
    requires forall i :: 0 <= i < |rows| ==> rows[i].id == base + i + 1
    ensures FirstToken(rows, ByTokenId(id)) ==
      if base + 1 <= id <= base + |rows| && LiveToken(rows[id - base - 1]) then Some(rows[id - base - 1]) else None
    decreases |rows|
  {
    if rows != [] {
      TokenByIdAt(rows[1..], id, base + 1);
    }
  }
}
