/**
 * store/db/sqlite/refresh_token.go: the UPDATE and SELECT texts the SQLite
 * driver builds for refresh tokens, and what the refresh_tokens table does
 * with them. The driver's row-level behaviour is Database.Driver.
 */
module SqliteRefreshToken {
  import opened Wrappers
  import opened StoreModel
  import opened Database
  import opened Strings
  import opened Sql

  const UpdateHead: string := UpdateHeadOf("refresh_tokens")

  const TokenColumnList: string :=
    "id, user_id, token, expires_at, " + "revoked, created_at, updated_at, deleted_at"
  const ListHead: string := "SELECT " + TokenColumnList + " FROM refresh_tokens " + "WHERE deleted_at IS NULL"

  lemma ListHeadPlaceholders()
    ensures Count(ListHead, '?') == 0
  {
    var a, b := "id, user_id, token, expires_at, ", "revoked, created_at, updated_at, deleted_at";
    assert NoMark(a) && NoMark(b);
    NoMarkConcat(a, b);
    assert NoMark("SELECT ") && NoMark(" FROM refresh_tokens ") && NoMark("WHERE deleted_at IS NULL");
    NoMarkConcat("SELECT ", TokenColumnList);
    NoMarkConcat("SELECT " + TokenColumnList, " FROM refresh_tokens ");
    NoMarkConcat("SELECT " + TokenColumnList + " FROM refresh_tokens ", "WHERE deleted_at IS NULL");
    NoMarkCount(ListHead);
  }

  /** The assignment after updated_at: revoked, whenever Revoked is set, false included. */
  function RevokedBinding(upd: UpdateRefreshToken): seq<Binding> {
    if upd.revoked.Some? then [Binding("revoked", BoolValue(upd.revoked.value))] else []
  }

  function UpdateTokenQuery(upd: UpdateRefreshToken): string {
    UpdateHead + Clause(", ", RevokedBinding(upd)) + WhereLiveId
  }

  function UpdateTokenArgs(upd: UpdateRefreshToken, now: int): seq<SqlValue> {
    [TimeValue(now)] + Values(RevokedBinding(upd)) + [IntValue(upd.id)]
  }

  /** Every argument has its placeholder and every placeholder its argument. */
  lemma UpdateTokenPlaceholders(upd: UpdateRefreshToken, now: int)
    ensures Count(UpdateTokenQuery(upd), '?') == |UpdateTokenArgs(upd, now)|
  {
    assert NoMark("refresh_tokens") && NoMark("revoked");
    UpdateStatementPlaceholders("refresh_tokens", RevokedBinding(upd));
  }

  /** UpdateRefreshToken's query builder; one `?` per argument. */
  method BuildUpdateRefreshToken(upd: UpdateRefreshToken, now: int) returns (query: string, args: seq<SqlValue>)
    ensures query == UpdateTokenQuery(upd) && args == UpdateTokenArgs(upd, now)
    ensures Count(query, '?') == |args|
  {
    query := UpdateHead;
    args := [TimeValue(now)];
    if upd.revoked.Some? {
      query, args := AppendBinding(query, args, ", ", Binding("revoked", BoolValue(upd.revoked.value)), UpdateHead, [TimeValue(now)], []);
      assert [] + RevokedBinding(upd) == RevokedBinding(upd);
    }
    query := query + WhereLiveId;
    args := args + [IntValue(upd.id)];
    UpdateTokenPlaceholders(upd, now);
  }

  /** One assignment to a refresh_tokens row. */
  function SetTokenColumn(t: RefreshToken, b: Binding): RefreshToken {
    match b.value
    case BoolValue(v) => if b.column == "revoked" then t.(revoked := v) else t
    case TimeValue(v) => if b.column == "updated_at" then t.(updatedAt := v) else t
    case _ => t
  }

  /**
   * The SET list applied to the row the WHERE clause selects gives the row
   * Database.Driver.UpdateRefreshToken writes: updated_at = now and revoked
   * replaced exactly when Revoked is set.
   */
  lemma TokenSetListIsDriverUpdate(t: RefreshToken, upd: UpdateRefreshToken, now: int)
    ensures ApplySet(t, [Binding("updated_at", TimeValue(now))] + RevokedBinding(upd), SetTokenColumn) ==
      t.(updatedAt := now, revoked := upd.revoked.GetOr(t.revoked))
  {
    var head := Binding("updated_at", TimeValue(now));
    if upd.revoked.Some? {
      assert [head] + RevokedBinding(upd) == [head, Binding("revoked", BoolValue(upd.revoked.value))];
      ApplySetPair(t, head, Binding("revoked", BoolValue(upd.revoked.value)), SetTokenColumn);
    } else {
      assert [head] + RevokedBinding(upd) == [head];
      ApplySetSingle(t, head, SetTokenColumn);
    }
  }

  /** The value a refresh_tokens row holds in a column it can be filtered on. */
  function TokenColumnValue(t: RefreshToken, column: string): Option<SqlValue> {
    if column == "id" then Some(IntValue(t.id))
    else if column == "user_id" then Some(IntValue(t.userId))
    else if column == "token" then Some(TextValue(t.token))
    else None
  }

  predicate TokenSatisfies(t: RefreshToken, conds: seq<Binding>) {
    forall i :: 0 <= i < |conds| ==> TokenColumnValue(t, conds[i].column) == Some(conds[i].value)
  }

  /** ListRefreshTokens' conditions after "deleted_at IS NULL": ID, UserID, Token, each only when set. */
  function TokenConditions(find: FindRefreshToken): seq<Binding> {
    IntBinding("id", find.id) + IntBinding("user_id", find.userId) + TextBinding("token", find.token)
  }

  /** A live row passes the WHERE clause exactly when it matches the FindRefreshToken. */
  lemma TokenConditionsMatchFind(t: RefreshToken, find: FindRefreshToken)
    ensures LiveToken(t) && TokenSatisfies(t, TokenConditions(find)) <==> MatchesTokenFind(t, find)
  {
    var c := TokenConditions(find);
    var k := 0;
    if find.id.Some? {
      assert c[k] == Binding("id", IntValue(find.id.value));
      k := k + 1;
    }
    if find.userId.Some? {
      assert c[k] == Binding("user_id", IntValue(find.userId.value));
      k := k + 1;
    }
    if find.token.Some? {
      assert c[k] == Binding("token", TextValue(find.token.value));
      k := k + 1;
    }
    assert |c| == k;
  }

  function SelectTokensWhere(rows: seq<RefreshToken>, conds: seq<Binding>): seq<RefreshToken> {
    if rows == [] then []
    else (if LiveToken(rows[0]) && TokenSatisfies(rows[0], conds) then [rows[0]] else []) + SelectTokensWhere(rows[1..], conds)
  }

  /** The ListRefreshTokens statement returns exactly Database.SelectTokens. */
  lemma {:induction false} SelectTokensWhereIsSelectTokens(rows: seq<RefreshToken>, find: FindRefreshToken)
    ensures SelectTokensWhere(rows, TokenConditions(find)) == SelectTokens(rows, find)
  {
    if rows != [] {
      TokenConditionsMatchFind(rows[0], find);
      SelectTokensWhereIsSelectTokens(rows[1..], find);
    }
  }

  function ListTokensQuery(find: FindRefreshToken): string {
    ListHead + Clause(" AND ", TokenConditions(find))
  }

  /** ListRefreshTokens' query builder; one `?` per argument. */
  method BuildListRefreshTokens(find: FindRefreshToken) returns (query: string, args: seq<SqlValue>)
    ensures query == ListTokensQuery(find) && args == Values(TokenConditions(find))
    ensures Count(query, '?') == |args|
  {
    query := ListHead;
    args := [];
    query, args := AppendInt(query, args, " AND ", "id", find.id, ListHead, [], []);
    assert [] + IntBinding("id", find.id) == IntBinding("id", find.id);
    ghost var conds := IntBinding("id", find.id);
    query, args := AppendInt(query, args, " AND ", "user_id", find.userId, ListHead, [], conds);
    conds := conds + IntBinding("user_id", find.userId);
    query, args := AppendText(query, args, " AND ", "token", find.token, ListHead, [], conds);
    conds := conds + TextBinding("token", find.token);
    ListTokensPlaceholders(find);
  }

  lemma ListTokensPlaceholders(find: FindRefreshToken)
    ensures Count(ListTokensQuery(find), '?') == |Values(TokenConditions(find))|
  {
    ListHeadPlaceholders();
    var c := TokenConditions(find);
    assert NoMark(" AND ") && NoMark("id") && NoMark("user_id") && NoMark("token");
    assert PlainColumns(c);
    ClauseBetween(ListHead, " AND ", c, "");
    assert ListHead + Clause(" AND ", c) + "" == ListTokensQuery(find);
  }
}
