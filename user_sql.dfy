/**
 * What the users table does with the bindings the SQLite and PostgreSQL
 * drivers build (store/db/sqlite/user.go, store/db/postgresql/user.go): the
 * SET list both UpdateUser builders emit, how a row takes it, and the WHERE
 * conjunction of ListUsers.
 */
module UserSql {
  import opened Wrappers
  import opened StoreModel
  import opened Database
  import opened Sql

  /**
   * The assignments both UpdateUser builders append after `updated_at`, in
   * their fixed order; a password also sets password_expires to now + 90 days,
   * and an explicit PasswordExpires comes last.
   */
  function UserAssignments(upd: UpdateUser, now: int): seq<Binding> {
    TextBinding("username", upd.username) + TextBinding("nickname", upd.nickname) + PasswordBindings(upd, now) +
    TextBinding("phone", upd.phone) + TextBinding("email", upd.email) + TextBinding("role", upd.role) + ExpiresBinding(upd)
  }

  /** The whole SET list: updated_at first, then the field assignments. */
  function UserSetList(upd: UpdateUser, now: int): seq<Binding> {
    [Binding("updated_at", TimeValue(now))] + UserAssignments(upd, now)
  }

  lemma UserColumnsArePlain(upd: UpdateUser, now: int)
    ensures PlainColumns(UserAssignments(upd, now))
  {
    var p1, p2, p3 := TextBinding("username", upd.username), TextBinding("nickname", upd.nickname), PasswordBindings(upd, now);
    var p4, p5, p6, p7 := TextBinding("phone", upd.phone), TextBinding("email", upd.email), TextBinding("role", upd.role), ExpiresBinding(upd);
    assert NoMark("username") && NoMark("nickname") && NoMark("password") && NoMark("password_expires");
    assert NoMark("phone") && NoMark("email") && NoMark("role");
    assert PlainColumns(p1) && PlainColumns(p2) && PlainColumns(p3) && PlainColumns(p4);
    assert PlainColumns(p5) && PlainColumns(p6) && PlainColumns(p7);
    PlainConcat(p1, p2);
    PlainConcat(p1 + p2, p3);
    PlainConcat(p4, p5);
    PlainConcat(p4 + p5, p6);
    PlainConcat(p4 + p5 + p6, p7);
    PlainConcat(p1 + p2 + p3, p4 + p5 + p6 + p7);
  }

  /** One assignment to a users row; a column or value type the table does not have leaves it alone. */
  function SetColumn(u: User, b: Binding): User {
    match b.value
    case TextValue(s) =>
      if b.column == "username" then u.(username := s)
      else if b.column == "nickname" then u.(nickname := s)
      else if b.column == "password" then u.(password := s)
      else if b.column == "phone" then u.(phone := s)
      else if b.column == "email" then u.(email := s)
      else if b.column == "role" then u.(role := s)
      else u
    case TimeValue(t) =>
      if b.column == "password_expires" then u.(passwordExpires := t)
      else if b.column == "updated_at" then u.(updatedAt := t)
      else u
    case _ => u
  }

  /** The users table's SET list, applied left to right. */
  function ExecuteSet(u: User, bs: seq<Binding>): User {
    ApplySet(u, bs, SetColumn)
  }

  lemma ExecuteTextBinding(u: User, column: string, field: Option<string>)
    ensures ExecuteSet(u, TextBinding(column, field)) ==
      if field.Some? then SetColumn(u, Binding(column, TextValue(field.value))) else u
  {
    if field.Some? {
      ApplySetSingle(u, Binding(column, TextValue(field.value)), SetColumn);
    }
  }

  /** The password assignments: password, then its new expiry. */
  function PasswordBindings(upd: UpdateUser, now: int): seq<Binding> {
    if upd.password.Some? then
      [Binding("password", TextValue(upd.password.value)), Binding("password_expires", TimeValue(now + PasswordLifetime))]
    else []
  }

  function ExpiresBinding(upd: UpdateUser): seq<Binding> {
    if upd.passwordExpires.Some? then [Binding("password_expires", TimeValue(upd.passwordExpires.value))] else []
  }

  /** username, nickname, password and its new expiry. */
  function CredentialBindings(upd: UpdateUser, now: int): seq<Binding> {
    TextBinding("username", upd.username) + TextBinding("nickname", upd.nickname) + PasswordBindings(upd, now)
  }

  /** phone, email, role and an explicit password expiry. */
  function ContactBindings(upd: UpdateUser): seq<Binding> {
    TextBinding("phone", upd.phone) + TextBinding("email", upd.email) + TextBinding("role", upd.role) + ExpiresBinding(upd)
  }

  lemma CredentialEffect(u: User, upd: UpdateUser, now: int)
    ensures ExecuteSet(u, CredentialBindings(upd, now)) ==
      u.(username := upd.username.GetOr(u.username), nickname := upd.nickname.GetOr(u.nickname),
         password := upd.password.GetOr(u.password),
         passwordExpires := if upd.password.Some? then now + PasswordLifetime else u.passwordExpires)
  {
    var p1 := TextBinding("username", upd.username);
    var p2 := TextBinding("nickname", upd.nickname);
    var p3 := PasswordBindings(upd, now);
    ExecuteTextBinding(u, "username", upd.username);
    var u1 := ExecuteSet(u, p1);
    ApplySetConcat(u, p1, p2, SetColumn);
    ExecuteTextBinding(u1, "nickname", upd.nickname);
    var u2 := ExecuteSet(u1, p2);
    ApplySetConcat(u, p1 + p2, p3, SetColumn);
    if upd.password.Some? {
      ApplySetPair(u2, p3[0], p3[1], SetColumn);
    }
  }

  lemma ContactEffect(v: User, upd: UpdateUser)
    ensures ExecuteSet(v, ContactBindings(upd)) ==
      v.(phone := upd.phone.GetOr(v.phone), email := upd.email.GetOr(v.email), role := upd.role.GetOr(v.role),
         passwordExpires := upd.passwordExpires.GetOr(v.passwordExpires))
  {
    var p4 := TextBinding("phone", upd.phone);
    var p5 := TextBinding("email", upd.email);
    var p6 := TextBinding("role", upd.role);
    var p7 := ExpiresBinding(upd);
    ExecuteTextBinding(v, "phone", upd.phone);
    var v4 := ExecuteSet(v, p4);
    ApplySetConcat(v, p4, p5, SetColumn);
    ExecuteTextBinding(v4, "email", upd.email);
    var v5 := ExecuteSet(v4, p5);
    ApplySetConcat(v, p4 + p5, p6, SetColumn);
    ExecuteTextBinding(v5, "role", upd.role);
    var v6 := ExecuteSet(v5, p6);
    ApplySetConcat(v, p4 + p5 + p6, p7, SetColumn);
    if upd.passwordExpires.Some? {
      ApplySetSingle(v6, p7[0], SetColumn);
    }
  }

  /**
   * A SET list made of updated_at, a credential part and the contact part
   * acts as the three parts in turn.
   */
  lemma SetListEffect(u: User, upd: UpdateUser, now: int, cred: seq<Binding>)
    ensures ExecuteSet(u, [Binding("updated_at", TimeValue(now))] + (cred + ContactBindings(upd))) ==
      ExecuteSet(ExecuteSet(u.(updatedAt := now), cred), ContactBindings(upd))
  {
    var head := [Binding("updated_at", TimeValue(now))];
    ApplySetConcat(u, head, cred + ContactBindings(upd), SetColumn);
    ApplySetSingle(u, head[0], SetColumn);
    ApplySetConcat(u.(updatedAt := now), cred, ContactBindings(upd), SetColumn);
  }

  /**
   * The SET list the builders emit, applied to a row, gives exactly the row
   * the store's UpdateUser promises: each set field replaced, updated_at = now,
   * and password_expires from an explicit value, else from a new password,
   * else kept.
   */
  lemma SetListIsApplyUserUpdate(u: User, upd: UpdateUser, now: int)
    ensures ExecuteSet(u, UserSetList(upd, now)) == ApplyUserUpdate(u, upd, now)
  {
    assert UserAssignments(upd, now) == CredentialBindings(upd, now) + ContactBindings(upd);
    SetListEffect(u, upd, now, CredentialBindings(upd, now));
    var u0 := u.(updatedAt := now);
    CredentialEffect(u0, upd, now);
    ContactEffect(ExecuteSet(u0, CredentialBindings(upd, now)), upd);
  }

  /** The value a users row holds in a column it can be filtered on. */
  function ColumnValue(u: User, column: string): Option<SqlValue> {
    if column == "id" then Some(IntValue(u.id))
    else if column == "username" then Some(TextValue(u.username))
    else if column == "email" then Some(TextValue(u.email))
    else if column == "role" then Some(TextValue(u.role))
    else None
  }

  /** A row satisfies a WHERE conjunction of "column = value" tests. */
  predicate Satisfies(u: User, conds: seq<Binding>) {
    forall i :: 0 <= i < |conds| ==> ColumnValue(u, conds[i].column) == Some(conds[i].value)
  }

  /** ListUsers' conditions after "deleted_at IS NULL": ID, Username, Email, Role, each only when set. */
  function UserConditions(find: FindUser): seq<Binding> {
    IntBinding("id", find.id) +
    TextBinding("username", find.username) +
    TextBinding("email", find.email) +
    TextBinding("role", find.role)
  }

  lemma UserConditionsArePlain(find: FindUser)
    ensures PlainColumns(UserConditions(find))
  {
    assert NoMark("id") && NoMark("username") && NoMark("email") && NoMark("role");
  }

  /** A live row passes the WHERE clause exactly when it matches the FindUser the store filters by. */
  lemma UserConditionsMatchFind(u: User, find: FindUser)
    ensures Live(u) && Satisfies(u, UserConditions(find)) <==> MatchesFind(u, find)
  {
    var c := UserConditions(find);
    var k := 0;
    if find.id.Some? {
      assert c[k] == Binding("id", IntValue(find.id.value));
      k := k + 1;
    }
    if find.username.Some? {
      assert c[k] == Binding("username", TextValue(find.username.value));
      k := k + 1;
    }
    if find.email.Some? {
      assert c[k] == Binding("email", TextValue(find.email.value));
      k := k + 1;
    }
    if find.role.Some? {
      assert c[k] == Binding("role", TextValue(find.role.value));
      k := k + 1;
    }
    assert |c| == k;
  }

  /** The rows a SELECT with "deleted_at IS NULL" and the conditions returns, in table order. */
  function SelectWhere(rows: seq<User>, conds: seq<Binding>): seq<User> {
    if rows == [] then []
    else (if Live(rows[0]) && Satisfies(rows[0], conds) then [rows[0]] else []) + SelectWhere(rows[1..], conds)
  }

  /** The ListUsers statement returns exactly the rows the store's ListUsers promises. */
  lemma {:induction false} SelectWhereIsSelectUsers(rows: seq<User>, find: FindUser)
    ensures SelectWhere(rows, UserConditions(find)) == SelectUsers(rows, find)
  {
    if rows != [] {
      UserConditionsMatchFind(rows[0], find);
      SelectWhereIsSelectUsers(rows[1..], find);
    }
  }
}
