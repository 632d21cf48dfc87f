/**
 * store/db/postgresql/user.go: the UPDATE ... RETURNING and SELECT texts the
 * PostgreSQL driver builds with numbered placeholders `$1, $2, ...`, and what
 * the users table does with them.
 *
 * Two places where the driver departs from the store's promises are modelled
 * twice, as written and corrected: a password change together with an explicit
 * PasswordExpires assigns password_expires twice (PostgreSQL refuses such a
 * statement), and ListUsers drops the Email and Role filters.
 */
module PostgresUser {
  import opened Wrappers
  import opened Errors
  import opened StoreModel
  import opened Database
  import opened Sql
  import opened UserSql

  const UpdateHead: string := "UPDATE users SET updated_at = " + Mark(1)
  const ReturnedColumns: string := "id, username, nickname, password, phone, email, role, password_expires, created_at, updated_at"
  const ListHead: string := "SELECT " + ReturnedColumns + ", deleted_at FROM users WHERE deleted_at IS NULL"

  /** The text after the SET list: the row's id goes in the last placeholder, `$k`. */
  function UpdateTail(k: nat): string {
    " WHERE id = " + Mark(k) + " AND deleted_at IS NULL RETURNING " + ReturnedColumns
  }

  /** UpdateUser's statement for the SET list `updated_at = $1` followed by `bs`. */
  function UpdateQuery(bs: seq<Binding>): string {
    UpdateHead + NumberedClause(", ", bs, 2) + UpdateTail(|bs| + 2)
  }

  function UpdateArgs(bs: seq<Binding>, id: int, now: int): seq<SqlValue> {
    [TimeValue(now)] + Values(bs) + [IntValue(id)]
  }

  /** $1 is bound to now, $(i + 2) to the i-th assignment's value and the last placeholder to the id. */
  lemma UpdateArgsOrder(bs: seq<Binding>, id: int, now: int)
    ensures var args := UpdateArgs(bs, id, now);
      |args| == |bs| + 2 && args[0] == TimeValue(now) && args[|args| - 1] == IntValue(id) &&
      forall i :: 0 <= i < |bs| ==> args[i + 1] == bs[i].value
  {
    var args := UpdateArgs(bs, id, now);
    forall i | 0 <= i < |bs|
      ensures args[i + 1] == bs[i].value
    {
      assert args[i + 1] == Values(bs)[i];
    }
  }

  /**
   * The placeholders are $1 .. $n in order: the i-th assignment carries
   * $(i + 2), and the id the last one, $(|bs| + 2), which is $|args|.
   */
  lemma UpdatePlaceholdersInOrder(bs: seq<Binding>, i: nat)
    requires i < |bs|
    ensures UpdateQuery(bs) ==
      UpdateHead + (NumberedClause(", ", bs[..i], 2) + Part(", ", bs[i], Mark(2 + i)) +
      NumberedClause(", ", bs[i + 1..], 2 + i + 1)) + UpdateTail(|bs| + 2)
  {
    NumberedClauseAt(", ", bs, 2, i);
  }

  /** The password step as written: the password, then a new expiry 90 days out. */
  method AppendPasswordAsWritten(query: string, args: seq<SqlValue>, argCount: nat, upd: UpdateUser, now: int,
                                 ghost bs: seq<Binding>)
    returns (query': string, args': seq<SqlValue>, argCount': nat)
    requires argCount == |args|
    requires query == UpdateHead + NumberedClause(", ", bs, 2) && args == [TimeValue(now)] + Values(bs)
    ensures argCount' == |args'|
    ensures query' == UpdateHead + NumberedClause(", ", bs + PasswordBindings(upd, now), 2)
    ensures args' == [TimeValue(now)] + Values(bs + PasswordBindings(upd, now))
  {
    query', args', argCount' := query, args, argCount;
    if upd.password.Some? {
      var pw := Binding("password", TextValue(upd.password.value));
      var pe := Binding("password_expires", TimeValue(now + PasswordLifetime));
      query', args', argCount' := AppendNumbered(query', args', argCount', ", ", pw, UpdateHead, [TimeValue(now)], 2, bs);
      query', args', argCount' := AppendNumbered(query', args', argCount', ", ", pe, UpdateHead, [TimeValue(now)], 2, bs + [pw]);
      assert bs + [pw] + [pe] == bs + PasswordBindings(upd, now);
    } else {
      assert bs + PasswordBindings(upd, now) == bs;
    }
  }

  /** The explicit PasswordExpires step, last in the SET list. */
  method AppendExpires(query: string, args: seq<SqlValue>, argCount: nat, upd: UpdateUser, now: int,
                       ghost bs: seq<Binding>)
    returns (query': string, args': seq<SqlValue>, argCount': nat)
    requires argCount == |args|
    requires query == UpdateHead + NumberedClause(", ", bs, 2) && args == [TimeValue(now)] + Values(bs)
    ensures argCount' == |args'|
    ensures query' == UpdateHead + NumberedClause(", ", bs + ExpiresBinding(upd), 2)
    ensures args' == [TimeValue(now)] + Values(bs + ExpiresBinding(upd))
  {
    query', args', argCount' := query, args, argCount;
    if upd.passwordExpires.Some? {
      var pe := Binding("password_expires", TimeValue(upd.passwordExpires.value));
      query', args', argCount' := AppendNumbered(query', args', argCount', ", ", pe, UpdateHead, [TimeValue(now)], 2, bs);
    } else {
      assert bs + ExpiresBinding(upd) == bs;
    }
  }

  /** The WHERE/RETURNING step: one more placeholder, bound to the id. */
  method AppendWhereId(query: string, args: seq<SqlValue>, argCount: nat, id: int, now: int, ghost bs: seq<Binding>)
    returns (query': string, args': seq<SqlValue>, argCount': nat)
    requires argCount == |args|
    requires query == UpdateHead + NumberedClause(", ", bs, 2) && args == [TimeValue(now)] + Values(bs)
    ensures argCount' == |args'|
    ensures query' == UpdateQuery(bs) && args' == UpdateArgs(bs, id, now)
  {
    argCount' := argCount + 1;
    query' := query + UpdateTail(argCount');
    args' := args + [IntValue(id)];
  }

  /**
   * UpdateUser's builder as written: the same SET list as the SQLite driver,
   * numbered; `argCount` is the number of arguments after every step.
   */
  method BuildUpdateUserAsWritten(upd: UpdateUser, now: int) returns (query: string, args: seq<SqlValue>, argCount: nat)
    ensures query == UpdateQuery(UserAssignments(upd, now)) && args == UpdateArgs(UserAssignments(upd, now), upd.id, now)
    ensures argCount == |args|
  {
    query, args, argCount := UpdateHead, [TimeValue(now)], 1;
    ghost var bs: seq<Binding> := [];
    query, args, argCount := AppendNumberedText(query, args, argCount, ", ", "username", upd.username, UpdateHead, [TimeValue(now)], 2, bs);
    bs := bs + TextBinding("username", upd.username);
    query, args, argCount := AppendNumberedText(query, args, argCount, ", ", "nickname", upd.nickname, UpdateHead, [TimeValue(now)], 2, bs);
    bs := bs + TextBinding("nickname", upd.nickname);
    query, args, argCount := AppendPasswordAsWritten(query, args, argCount, upd, now, bs);
    bs := bs + PasswordBindings(upd, now);
    query, args, argCount := AppendNumberedText(query, args, argCount, ", ", "phone", upd.phone, UpdateHead, [TimeValue(now)], 2, bs);
    bs := bs + TextBinding("phone", upd.phone);
    query, args, argCount := AppendNumberedText(query, args, argCount, ", ", "email", upd.email, UpdateHead, [TimeValue(now)], 2, bs);
    bs := bs + TextBinding("email", upd.email);
    query, args, argCount := AppendNumberedText(query, args, argCount, ", ", "role", upd.role, UpdateHead, [TimeValue(now)], 2, bs);
    bs := bs + TextBinding("role", upd.role);
    query, args, argCount := AppendExpires(query, args, argCount, upd, now, bs);
    bs := bs + ExpiresBinding(upd);
    query, args, argCount := AppendWhereId(query, args, argCount, upd.id, now, bs);
  }

  /** PostgreSQL's refusal of a SET list that names a column twice. */
  const MultipleAssignments: Error := PlainError("multiple assignments to same column")

  /** What the UPDATE ... RETURNING statement answers and leaves in the table. */
  datatype UpdateOutcome = UpdateOutcome(reply: Result<User>, rows: seq<User>)

  /**
   * The statement with SET list `bs` on the live row with the given id (row
   * i holds id i + 1): refused when a column is named twice, sql.ErrNoRows
   * from Scan when no live row has the id, else the updated row returned.
   */
  function ExecuteUpdate(rows: seq<User>, id: int, bs: seq<Binding>): (o: UpdateOutcome)
    ensures o.reply.Err? ==> o.rows == rows
    ensures o.reply.Ok? <==> DistinctColumns(bs) && HasLiveUser(rows, id)
    ensures o.reply.Ok? ==> o.rows == rows[id - 1 := o.reply.value] && o.reply.value == ExecuteSet(rows[id - 1], bs)
  {
    if !DistinctColumns(bs) then UpdateOutcome(Err(Wrap(MultipleAssignments, "failed to update user")), rows)
    else if !HasLiveUser(rows, id) then UpdateOutcome(Err(Wrap(ErrNoRows, "failed to update user")), rows)
    else
      var u := ExecuteSet(rows[id - 1], bs);
      UpdateOutcome(Ok(u), rows[id - 1 := u])
  }

  /** Columns of an optional single binding. */
  lemma SingleColumns(bs: seq<Binding>, column: string)
    requires |bs| <= 1 && (bs != [] ==> bs[0].column == column)
    ensures DistinctColumns(bs) && Columns(bs) <= {column}
  {
  }

  /** Appending a part whose columns are new keeps the SET list's columns distinct. */
  lemma AppendFresh(a: seq<Binding>, b: seq<Binding>)
    requires DistinctColumns(a) && DistinctColumns(b) && Columns(a) !! Columns(b)
    ensures DistinctColumns(a + b) && Columns(a + b) == Columns(a) + Columns(b)
  {
    DistinctConcat(a, b);
    ColumnsConcat(a, b);
  }

  /** username, nickname and a password part name distinct columns. */
  lemma CredentialColumns(u: seq<Binding>, n: seq<Binding>, p: seq<Binding>)
    requires |u| <= 1 && (u != [] ==> u[0].column == "username")
    requires |n| <= 1 && (n != [] ==> n[0].column == "nickname")
    requires DistinctColumns(p) && Columns(p) <= {"password", "password_expires"}
    ensures DistinctColumns(u + n + p) && Columns(u + n + p) <= {"username", "nickname"} + Columns(p)
  {
    SingleColumns(u, "username");
    SingleColumns(n, "nickname");
    AppendFresh(u, n);
    AppendFresh(u + n, p);
  }

  /** phone, email, role and an expiry part name distinct columns. */
  lemma ContactColumns(ph: seq<Binding>, em: seq<Binding>, r: seq<Binding>, e: seq<Binding>)
    requires |ph| <= 1 && (ph != [] ==> ph[0].column == "phone")
    requires |em| <= 1 && (em != [] ==> em[0].column == "email")
    requires |r| <= 1 && (r != [] ==> r[0].column == "role")
    requires |e| <= 1 && (e != [] ==> e[0].column == "password_expires")
    ensures DistinctColumns(ph + em + r + e) && Columns(ph + em + r + e) <= {"phone", "email", "role"} + Columns(e)
  {
    SingleColumns(ph, "phone");
    SingleColumns(em, "email");
    SingleColumns(r, "role");
    SingleColumns(e, "password_expires");
    AppendFresh(ph, em);
    AppendFresh(ph + em, r);
    AppendFresh(ph + em + r, e);
  }

  /**
   * A SET list laid out as updated_at, username, nickname, a password part,
   * phone, email, role and an expiry part names every column once as long as
   * the two parts share no column.
   */
  lemma SetListShapeDistinct(u: seq<Binding>, n: seq<Binding>, p: seq<Binding>, ph: seq<Binding>,
                             em: seq<Binding>, r: seq<Binding>, e: seq<Binding>, now: int)
    requires |u| <= 1 && (u != [] ==> u[0].column == "username")
    requires |n| <= 1 && (n != [] ==> n[0].column == "nickname")
    requires |ph| <= 1 && (ph != [] ==> ph[0].column == "phone")
    requires |em| <= 1 && (em != [] ==> em[0].column == "email")
    requires |r| <= 1 && (r != [] ==> r[0].column == "role")
    requires |e| <= 1 && (e != [] ==> e[0].column == "password_expires")
    requires DistinctColumns(p) && Columns(p) <= {"password", "password_expires"} && Columns(p) !! Columns(e)
    ensures DistinctColumns([Binding("updated_at", TimeValue(now))] + ((u + n + p) + (ph + em + r + e)))
  {
    var s0 := [Binding("updated_at", TimeValue(now))];
    assert Columns(s0) == {"updated_at"} by {
      assert s0[0].column == "updated_at";
    }
    CredentialColumns(u, n, p);
    ContactColumns(ph, em, r, e);
    SingleColumns(e, "password_expires");
    AppendFresh(u + n + p, ph + em + r + e);
    AppendFresh(s0, (u + n + p) + (ph + em + r + e));
  }

  /** As written, a password change with an explicit expiry names password_expires twice. */
  lemma AsWrittenExpiryTwice(upd: UpdateUser, now: int)
    requires upd.password.Some? && upd.passwordExpires.Some?
    ensures !DistinctColumns(UserSetList(upd, now))
  {
    var p, e := PasswordBindings(upd, now), ExpiresBinding(upd);
    var x := TextBinding("username", upd.username) + TextBinding("nickname", upd.nickname) + p;
    var k := |x| - 1;
    assert x[k] == p[1];
    var y := x + TextBinding("phone", upd.phone) + TextBinding("email", upd.email) + TextBinding("role", upd.role);
    assert y[k] == x[k];
    var a := y + e;
    assert a == UserAssignments(upd, now);
    assert a[k] == y[k] && a[|a| - 1] == e[0];
    var l := [Binding("updated_at", TimeValue(now))] + a;
    assert l[k + 1] == a[k] && l[|l| - 1] == a[|a| - 1];
    assert k + 1 < |l| - 1 && l[k + 1].column == l[|l| - 1].column;
  }

  /**
   * As written, the SET list names every column once exactly when the update
   * does not carry both a password and an explicit expiry.
   */
  lemma AsWrittenSetListDistinct(upd: UpdateUser, now: int)
    ensures DistinctColumns(UserSetList(upd, now)) <==> !(upd.password.Some? && upd.passwordExpires.Some?)
  {
    if upd.password.Some? && upd.passwordExpires.Some? {
      AsWrittenExpiryTwice(upd, now);
    } else {
      var p := PasswordBindings(upd, now);
      assert Columns(p) <= {"password", "password_expires"} by {
        if p != [] {
          assert p[0].column == "password" && p[1].column == "password_expires";
        }
      }
      assert UserAssignments(upd, now) == CredentialBindings(upd, now) + ContactBindings(upd);
      SetListShapeDistinct(TextBinding("username", upd.username), TextBinding("nickname", upd.nickname), p,
        TextBinding("phone", upd.phone), TextBinding("email", upd.email), TextBinding("role", upd.role), ExpiresBinding(upd), now);
    }
  }

  /**
   * As written, a password change with an explicit expiry is refused by the
   * database for every table, although the store promises the explicit
   * expiry wins (and the SQLite driver delivers it).
   */
  lemma PasswordWithExpiryIsRefused(rows: seq<User>, upd: UpdateUser, now: int)
    requires upd.password.Some? && upd.passwordExpires.Some?
    ensures ExecuteUpdate(rows, upd.id, UserSetList(upd, now)) ==
      UpdateOutcome(Err(Wrap(MultipleAssignments, "failed to update user")), rows)
    ensures HasLiveUser(rows, upd.id) ==>
      ExecuteSet(rows[upd.id - 1], UserSetList(upd, now)) == ApplyUserUpdate(rows[upd.id - 1], upd, now)
  {
    AsWrittenExpiryTwice(upd, now);
    if HasLiveUser(rows, upd.id) {
      SetListIsApplyUserUpdate(rows[upd.id - 1], upd, now);
    }
  }

  /** Corrected: the 90-day expiry that follows a new password, only when no explicit expiry comes later. */
  function RenewedExpiry(upd: UpdateUser, now: int): seq<Binding> {
    if upd.password.Some? && upd.passwordExpires.None? then [Binding("password_expires", TimeValue(now + PasswordLifetime))] else []
  }

  function PasswordBindingsCorrected(upd: UpdateUser, now: int): seq<Binding> {
    TextBinding("password", upd.password) + RenewedExpiry(upd, now)
  }

  function CredentialBindingsCorrected(upd: UpdateUser, now: int): seq<Binding> {
    TextBinding("username", upd.username) + TextBinding("nickname", upd.nickname) + PasswordBindingsCorrected(upd, now)
  }

  function UserAssignmentsCorrected(upd: UpdateUser, now: int): seq<Binding> {
    CredentialBindingsCorrected(upd, now) + ContactBindings(upd)
  }

  function UserSetListCorrected(upd: UpdateUser, now: int): seq<Binding> {
    [Binding("updated_at", TimeValue(now))] + UserAssignmentsCorrected(upd, now)
  }

  /** The corrected assignments in the order the builder appends them. */
  lemma CorrectedAssignmentsInOrder(upd: UpdateUser, now: int)
    ensures UserAssignmentsCorrected(upd, now) ==
      TextBinding("username", upd.username) + TextBinding("nickname", upd.nickname) + PasswordBindingsCorrected(upd, now) +
      TextBinding("phone", upd.phone) + TextBinding("email", upd.email) + TextBinding("role", upd.role) + ExpiresBinding(upd)
  {
  }

  /** Where the as-written list is accepted, the corrected one is the same list. */
  lemma CorrectedAgreesWhenAccepted(upd: UpdateUser, now: int)
    requires !(upd.password.Some? && upd.passwordExpires.Some?)
    ensures UserAssignmentsCorrected(upd, now) == UserAssignments(upd, now)
  {
    assert PasswordBindingsCorrected(upd, now) == PasswordBindings(upd, now);
    CorrectedAssignmentsInOrder(upd, now);
  }

  /** The corrected SET list names every column once. */
  lemma CorrectedSetListDistinct(upd: UpdateUser, now: int)
    ensures DistinctColumns(UserSetListCorrected(upd, now))
  {
    var p, e := PasswordBindingsCorrected(upd, now), ExpiresBinding(upd);
    assert DistinctColumns(p) && Columns(p) <= {"password", "password_expires"} && Columns(p) !! Columns(e) by {
      if upd.password.Some? && upd.passwordExpires.Some? {
        assert p == [p[0]] && p[0].column == "password";
        assert Columns(p) == {"password"};
      } else if upd.password.Some? {
        assert p[0].column == "password" && p[1].column == "password_expires";
        assert e == [];
      }
    }
    SetListShapeDistinct(TextBinding("username", upd.username), TextBinding("nickname", upd.nickname), p,
      TextBinding("phone", upd.phone), TextBinding("email", upd.email), TextBinding("role", upd.role), e, now);
  }

  /** The corrected credential part, applied to a row. */
  lemma CorrectedCredentialEffect(u: User, upd: UpdateUser, now: int)
    ensures ExecuteSet(u, CredentialBindingsCorrected(upd, now)) ==
      u.(username := upd.username.GetOr(u.username), nickname := upd.nickname.GetOr(u.nickname),
         password := upd.password.GetOr(u.password),
         passwordExpires := if upd.password.Some? && upd.passwordExpires.None? then now + PasswordLifetime else u.passwordExpires)
  {
    var p1 := TextBinding("username", upd.username);
    var p2 := TextBinding("nickname", upd.nickname);
    var p3 := TextBinding("password", upd.password);
    var p4 := RenewedExpiry(upd, now);
    ExecuteTextBinding(u, "username", upd.username);
    var u1 := ExecuteSet(u, p1);
    ApplySetConcat(u, p1, p2, SetColumn);
    ExecuteTextBinding(u1, "nickname", upd.nickname);
    var u2 := ExecuteSet(u1, p2);
    ApplySetConcat(u, p1 + p2, p3 + p4, SetColumn);
    ApplySetConcat(u2, p3, p4, SetColumn);
    ExecuteTextBinding(u2, "password", upd.password);
    if p4 != [] {
      ApplySetSingle(ExecuteSet(u2, p3), p4[0], SetColumn);
    }
  }

  /** The corrected SET list gives exactly the row the store's UpdateUser promises. */
  lemma CorrectedSetListIsApplyUserUpdate(u: User, upd: UpdateUser, now: int)
    ensures ExecuteSet(u, UserSetListCorrected(upd, now)) == ApplyUserUpdate(u, upd, now)
  {
    SetListEffect(u, upd, now, CredentialBindingsCorrected(upd, now));
    var u0 := u.(updatedAt := now);
    CorrectedCredentialEffect(u0, upd, now);
    ContactEffect(ExecuteSet(u0, CredentialBindingsCorrected(upd, now)), upd);
  }

  /**
   * With the corrected SET list, UpdateUser writes and returns the store's
   * updated row when a live row has the id, and reports sql.ErrNoRows
   * (wrapped) otherwise, leaving the table as it was.
   */
  lemma UpdateUserOutcome(rows: seq<User>, upd: UpdateUser, now: int)
    ensures var o := ExecuteUpdate(rows, upd.id, UserSetListCorrected(upd, now));
      (HasLiveUser(rows, upd.id) ==>
        o.reply == Ok(ApplyUserUpdate(rows[upd.id - 1], upd, now)) && o.rows == rows[upd.id - 1 := o.reply.value]) &&
      (!HasLiveUser(rows, upd.id) ==> o == UpdateOutcome(Err(Wrap(ErrNoRows, "failed to update user")), rows))
  {
    CorrectedSetListDistinct(upd, now);
    if HasLiveUser(rows, upd.id) {
      CorrectedSetListIsApplyUserUpdate(rows[upd.id - 1], upd, now);
    }
  }

  /** The corrected renewal step: `if update.PasswordExpires == nil` inside the password branch. */
  method AppendRenewedExpiry(query: string, args: seq<SqlValue>, argCount: nat, upd: UpdateUser, now: int,
                             ghost bs: seq<Binding>)
    returns (query': string, args': seq<SqlValue>, argCount': nat)
    requires argCount == |args|
    requires query == UpdateHead + NumberedClause(", ", bs, 2) && args == [TimeValue(now)] + Values(bs)
    ensures argCount' == |args'|
    ensures query' == UpdateHead + NumberedClause(", ", bs + RenewedExpiry(upd, now), 2)
    ensures args' == [TimeValue(now)] + Values(bs + RenewedExpiry(upd, now))
  {
    query', args', argCount' := query, args, argCount;
    if upd.password.Some? && upd.passwordExpires.None? {
      var pe := Binding("password_expires", TimeValue(now + PasswordLifetime));
      query', args', argCount' := AppendNumbered(query', args', argCount', ", ", pe, UpdateHead, [TimeValue(now)], 2, bs);
    } else {
      assert bs + RenewedExpiry(upd, now) == bs;
    }
  }

  /** The corrected password step. */
  method AppendPassword(query: string, args: seq<SqlValue>, argCount: nat, upd: UpdateUser, now: int,
                        ghost bs: seq<Binding>)
    returns (query': string, args': seq<SqlValue>, argCount': nat)
    requires argCount == |args|
    requires query == UpdateHead + NumberedClause(", ", bs, 2) && args == [TimeValue(now)] + Values(bs)
    ensures argCount' == |args'|
    ensures query' == UpdateHead + NumberedClause(", ", bs + PasswordBindingsCorrected(upd, now), 2)
    ensures args' == [TimeValue(now)] + Values(bs + PasswordBindingsCorrected(upd, now))
  {
    query', args', argCount' := AppendNumberedText(query, args, argCount, ", ", "password", upd.password, UpdateHead, [TimeValue(now)], 2, bs);
    query', args', argCount' := AppendRenewedExpiry(query', args', argCount', upd, now, bs + TextBinding("password", upd.password));
    assert bs + TextBinding("password", upd.password) + RenewedExpiry(upd, now) == bs + PasswordBindingsCorrected(upd, now);
  }

  /** UpdateUser's builder, corrected: password_expires is assigned at most once. */
  method BuildUpdateUser(upd: UpdateUser, now: int) returns (query: string, args: seq<SqlValue>, argCount: nat)
    ensures query == UpdateQuery(UserAssignmentsCorrected(upd, now)) && args == UpdateArgs(UserAssignmentsCorrected(upd, now), upd.id, now)
    ensures argCount == |args|
  {
    query, args, argCount := UpdateHead, [TimeValue(now)], 1;
    ghost var bs: seq<Binding> := [];
    query, args, argCount := AppendNumberedText(query, args, argCount, ", ", "username", upd.username, UpdateHead, [TimeValue(now)], 2, bs);
    bs := bs + TextBinding("username", upd.username);
    query, args, argCount := AppendNumberedText(query, args, argCount, ", ", "nickname", upd.nickname, UpdateHead, [TimeValue(now)], 2, bs);
    bs := bs + TextBinding("nickname", upd.nickname);
    query, args, argCount := AppendPassword(query, args, argCount, upd, now, bs);
    bs := bs + PasswordBindingsCorrected(upd, now);
    query, args, argCount := AppendNumberedText(query, args, argCount, ", ", "phone", upd.phone, UpdateHead, [TimeValue(now)], 2, bs);
    bs := bs + TextBinding("phone", upd.phone);
    query, args, argCount := AppendNumberedText(query, args, argCount, ", ", "email", upd.email, UpdateHead, [TimeValue(now)], 2, bs);
    bs := bs + TextBinding("email", upd.email);
    query, args, argCount := AppendNumberedText(query, args, argCount, ", ", "role", upd.role, UpdateHead, [TimeValue(now)], 2, bs);
    bs := bs + TextBinding("role", upd.role);
    query, args, argCount := AppendExpires(query, args, argCount, upd, now, bs);
    bs := bs + ExpiresBinding(upd);
    query, args, argCount := AppendWhereId(query, args, argCount, upd.id, now, bs);
    CorrectedAssignmentsInOrder(upd, now);
  }

  /** ListUsers' conditions as written: only ID and Username. */
  function ListConditionsAsWritten(find: FindUser): seq<Binding> {
    IntBinding("id", find.id) + TextBinding("username", find.username)
  }

  /** ListUsers' statement for the conditions `conds`, numbered from $1. */
  function ListQuery(conds: seq<Binding>): string {
    ListHead + NumberedClause(" AND ", conds, 1)
  }

  /** In ListUsers' statement the i-th condition carries $(i + 1), bound to the i-th argument. */
  lemma ListPlaceholdersInOrder(conds: seq<Binding>, i: nat)
    requires i < |conds|
    ensures ListQuery(conds) ==
      ListHead + (NumberedClause(" AND ", conds[..i], 1) + Part(" AND ", conds[i], Mark(1 + i)) +
      NumberedClause(" AND ", conds[i + 1..], 1 + i + 1))
    ensures Values(conds)[i] == conds[i].value
  {
    NumberedClauseAt(" AND ", conds, 1, i);
  }

  /** ListUsers' builder as written: `$len(args)` after each append. */
  method BuildListUsersAsWritten(find: FindUser) returns (query: string, args: seq<SqlValue>)
    ensures query == ListQuery(ListConditionsAsWritten(find)) && args == Values(ListConditionsAsWritten(find))
  {
    var argCount: nat;
    query, args := ListHead, [];
    query, args, argCount := AppendNumberedInt(query, args, |args|, " AND ", "id", find.id, ListHead, [], 1, []);
    assert [] + IntBinding("id", find.id) == IntBinding("id", find.id);
    query, args, argCount := AppendNumberedText(query, args, |args|, " AND ", "username", find.username, ListHead, [], 1, IntBinding("id", find.id));
  }

  /**
   * As written, ListUsers answers the query with the Email and Role filters
   * dropped.
   */
  lemma ListAsWrittenIgnoresEmailAndRole(rows: seq<User>, find: FindUser)
    ensures SelectWhere(rows, ListConditionsAsWritten(find)) == SelectUsers(rows, find.(email := None, role := None))
  {
    var find' := find.(email := None, role := None);
    assert UserConditions(find') == ListConditionsAsWritten(find);
    SelectWhereIsSelectUsers(rows, find');
  }

  /** A live user whose role is "user" is listed when the caller asks for admins. */
  lemma RoleFilterDropped()
    ensures var u := User(1, "alice", "Alice", "hash", "", "alice@example.com", RoleUser, 0, 0, 0, None);
      var find := FindUser(None, None, None, Some(RoleAdmin));
      SelectWhere([u], ListConditionsAsWritten(find)) == [u] && SelectUsers([u], find) == []
  {
    var u := User(1, "alice", "Alice", "hash", "", "alice@example.com", RoleUser, 0, 0, 0, None);
    var find := FindUser(None, None, None, Some(RoleAdmin));
    ListAsWrittenIgnoresEmailAndRole([u], find);
    assert [u][1..] == [];
  }

  /** ListUsers' builder, corrected: the Email and Role filters follow the two it has. */
  method BuildListUsers(find: FindUser) returns (query: string, args: seq<SqlValue>)
    ensures query == ListQuery(UserConditions(find)) && args == Values(UserConditions(find))
  {
    query, args := BuildListUsersAsWritten(find);
    ghost var conds := ListConditionsAsWritten(find);
    var argCount: nat;
    query, args, argCount := AppendNumberedText(query, args, |args|, " AND ", "email", find.email, ListHead, [], 1, conds);
    conds := conds + TextBinding("email", find.email);
    query, args, argCount := AppendNumberedText(query, args, |args|, " AND ", "role", find.role, ListHead, [], 1, conds);
    conds := conds + TextBinding("role", find.role);
    assert conds == UserConditions(find);
  }
}
