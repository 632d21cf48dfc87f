/**
 * store/db/sqlite/user.go: the UPDATE and SELECT texts the SQLite driver
 * builds for users, with one `?` per argument. What the table does with them
 * is in UserSql; the driver's row-level behaviour is Database.Driver.
 */
module SqliteUser {
  import opened StoreModel
  import opened Database
  import opened Strings
  import opened Sql
  import opened UserSql

  const UpdateHead: string := UpdateHeadOf("users")

  const UserColumnList: string :=
    "id, username, nickname, " + "password, phone, email, " + "role, password_expires, " + "created_at, updated_at, deleted_at"
  const ListHead: string := "SELECT " + UserColumnList + " FROM users " + "WHERE deleted_at IS NULL"

  lemma ListHeadPlaceholders()
    ensures Count(ListHead, '?') == 0
  {
    var a, b, c, d := "id, username, nickname, ", "password, phone, email, ", "role, password_expires, ", "created_at, updated_at, deleted_at";
    assert NoMark(a) && NoMark(b);
    assert NoMark(c) && NoMark(d);
    NoMarkConcat(a, b);
    NoMarkConcat(a + b, c);
    NoMarkConcat(a + b + c, d);
    assert NoMark("SELECT ") && NoMark(" FROM users ") && NoMark("WHERE deleted_at IS NULL");
    NoMarkConcat("SELECT ", UserColumnList);
    NoMarkConcat("SELECT " + UserColumnList, " FROM users ");
    NoMarkConcat("SELECT " + UserColumnList + " FROM users ", "WHERE deleted_at IS NULL");
    NoMarkCount(ListHead);
  }

  /** The UPDATE statement of UpdateUser for the update and the clock reading `now`. */
  function UpdateUserQuery(upd: UpdateUser, now: int): string {
    UpdateHead + Clause(", ", UserAssignments(upd, now)) + WhereLiveId
  }

  /** Its arguments: updated_at, the assigned values, then the id. */
  function UpdateUserArgs(upd: UpdateUser, now: int): seq<SqlValue> {
    [TimeValue(now)] + Values(UserAssignments(upd, now)) + [IntValue(upd.id)]
  }

  /** Every argument has its placeholder and every placeholder its argument. */
  lemma UpdateUserPlaceholders(upd: UpdateUser, now: int)
    ensures Count(UpdateUserQuery(upd, now), '?') == |UpdateUserArgs(upd, now)|
  {
    UserColumnsArePlain(upd, now);
    assert NoMark("users");
    UpdateStatementPlaceholders("users", UserAssignments(upd, now));
  }

  /**
   * UpdateUser's query builder: updated_at first, then one ", col = ?" per set
   * field in the fixed order, the id last. Executed on the row the WHERE clause
   * selects, the SET list gives Database.ApplyUserUpdate (SetListIsApplyUserUpdate).
   */
  method BuildUpdateUser(upd: UpdateUser, now: int) returns (query: string, args: seq<SqlValue>)
    ensures query == UpdateUserQuery(upd, now) && args == UpdateUserArgs(upd, now)
    ensures Count(query, '?') == |args|
  {
    ghost var first := [TimeValue(now)];
    query := UpdateHead;
    args := [TimeValue(now)];
    query, args := AppendText(query, args, ", ", "username", upd.username, UpdateHead, first, []);
    assert [] + TextBinding("username", upd.username) == TextBinding("username", upd.username);
    ghost var bs := TextBinding("username", upd.username);
    query, args := AppendText(query, args, ", ", "nickname", upd.nickname, UpdateHead, first, bs);
    bs := bs + TextBinding("nickname", upd.nickname);
    query, args := AppendPassword(query, args, upd, now, bs);
    bs := bs + PasswordBindings(upd, now);
    query, args := AppendText(query, args, ", ", "phone", upd.phone, UpdateHead, first, bs);
    bs := bs + TextBinding("phone", upd.phone);
    query, args := AppendText(query, args, ", ", "email", upd.email, UpdateHead, first, bs);
    bs := bs + TextBinding("email", upd.email);
    query, args := AppendText(query, args, ", ", "role", upd.role, UpdateHead, first, bs);
    bs := bs + TextBinding("role", upd.role);
    query, args := AppendExpires(query, args, upd, now, bs);
    bs := bs + ExpiresBinding(upd);
    assert bs == UserAssignments(upd, now);
    query := query + WhereLiveId;
    args := args + [IntValue(upd.id)];
    UpdateUserPlaceholders(upd, now);
  }

  /** A new password is written together with an expiry 90 days from now. */
  method AppendPassword(query: string, args: seq<SqlValue>, upd: UpdateUser, now: int, ghost bs: seq<Binding>)
    returns (query': string, args': seq<SqlValue>)
    requires query == UpdateHead + Clause(", ", bs) && args == [TimeValue(now)] + Values(bs)
    ensures query' == UpdateHead + Clause(", ", bs + PasswordBindings(upd, now))
    ensures args' == [TimeValue(now)] + Values(bs + PasswordBindings(upd, now))
  {
    query', args' := query, args;
    if upd.password.Some? {
      var b := Binding("password", TextValue(upd.password.value));
      query', args' := AppendBinding(query', args', ", ", b, UpdateHead, [TimeValue(now)], bs);
      var e := Binding("password_expires", TimeValue(now + PasswordLifetime));
      query', args' := AppendBinding(query', args', ", ", e, UpdateHead, [TimeValue(now)], bs + [b]);
      assert bs + [b] + [e] == bs + PasswordBindings(upd, now);
    } else {
      assert bs + PasswordBindings(upd, now) == bs;
    }
  }

  /** An explicit PasswordExpires is assigned last. */
  method AppendExpires(query: string, args: seq<SqlValue>, upd: UpdateUser, now: int, ghost bs: seq<Binding>)
    returns (query': string, args': seq<SqlValue>)
    requires query == UpdateHead + Clause(", ", bs) && args == [TimeValue(now)] + Values(bs)
    ensures query' == UpdateHead + Clause(", ", bs + ExpiresBinding(upd))
    ensures args' == [TimeValue(now)] + Values(bs + ExpiresBinding(upd))
  {
    query', args' := query, args;
    if upd.passwordExpires.Some? {
      var b := Binding("password_expires", TimeValue(upd.passwordExpires.value));
      query', args' := AppendBinding(query', args', ", ", b, UpdateHead, [TimeValue(now)], bs);
    } else {
      assert bs + ExpiresBinding(upd) == bs;
    }
  }

  /** The SELECT statement of ListUsers. */
  function ListUsersQuery(find: FindUser): string {
    ListHead + Clause(" AND ", UserConditions(find))
  }

  lemma ListUsersPlaceholders(find: FindUser)
    ensures Count(ListUsersQuery(find), '?') == |Values(UserConditions(find))|
  {
    ListHeadPlaceholders();
    UserConditionsArePlain(find);
    assert NoMark(" AND ");
    ClauseBetween(ListHead, " AND ", UserConditions(find), "");
    assert ListHead + Clause(" AND ", UserConditions(find)) + "" == ListUsersQuery(find);
  }

  /**
   * ListUsers' query builder: " AND col = ?" for ID, Username, Email and Role,
   * each only when set. The rows the statement returns are Database.SelectUsers
   * (SelectWhereIsSelectUsers).
   */
  method BuildListUsers(find: FindUser) returns (query: string, args: seq<SqlValue>)
    ensures query == ListUsersQuery(find) && args == Values(UserConditions(find))
    ensures Count(query, '?') == |args|
  {
    query := ListHead;
    args := [];
    query, args := AppendInt(query, args, " AND ", "id", find.id, ListHead, [], []);
    assert [] + IntBinding("id", find.id) == IntBinding("id", find.id);
    ghost var conds := IntBinding("id", find.id);
    query, args := AppendText(query, args, " AND ", "username", find.username, ListHead, [], conds);
    conds := conds + TextBinding("username", find.username);
    query, args := AppendText(query, args, " AND ", "email", find.email, ListHead, [], conds);
    conds := conds + TextBinding("email", find.email);
    query, args := AppendText(query, args, " AND ", "role", find.role, ListHead, [], conds);
    conds := conds + TextBinding("role", find.role);
    ListUsersPlaceholders(find);
  }
}
