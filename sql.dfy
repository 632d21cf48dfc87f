/**
 * The vocabulary the SQL drivers' query builders share: the values passed as
 * query arguments, "column = value" bindings, and the text a list of bindings
 * appends to a query, with `?` placeholders (SQLite, MySQL) or numbered `$n`
 * placeholders (PostgreSQL).
 */
module Sql {
  import opened Wrappers
  import opened Strings

  /** A query argument: time.Time, string, int64 or bool. Instants are seconds. */
  datatype SqlValue = TimeValue(t: int) | TextValue(s: string) | IntValue(i: int) | BoolValue(b: bool)

  /** One "column = value" pair of a SET list or of a WHERE conjunction. */
  datatype Binding = Binding(column: string, value: SqlValue)

  /** Text without a `?`: column names and the fixed parts of a query. */
  predicate NoMark(s: string) {
    forall i :: 0 <= i < |s| ==> s[i] != '?'
  }

  predicate PlainColumns(bs: seq<Binding>) {
    forall i :: 0 <= i < |bs| ==> NoMark(bs[i].column)
  }

  lemma PlainConcat(a: seq<Binding>, b: seq<Binding>)
    requires PlainColumns(a) && PlainColumns(b)
    ensures PlainColumns(a + b)
  {
    forall i | 0 <= i < |a + b|
      ensures NoMark((a + b)[i].column)
    {
      if i >= |a| {
        assert (a + b)[i] == b[i - |a|];
      }
    }
  }

  lemma {:induction false} NoMarkCount(s: string)
    requires NoMark(s)
    ensures Count(s, '?') == 0
    decreases |s|
  {
    if s != [] {
      NoMarkCount(s[1..]);
    }
  }

  lemma NoMarkConcat(a: string, b: string)
    requires NoMark(a) && NoMark(b)
    ensures NoMark(a + b)
  {
    forall i | 0 <= i < |a + b|
      ensures (a + b)[i] != '?'
    {
      if i >= |a| {
        assert (a + b)[i] == b[i - |a|];
      }
    }
  }

  /** One binding's text: `sep + column + " = " + placeholder`. */
  function Part(sep: string, b: Binding, mark: string): string {
    sep + b.column + " = " + mark
  }

  /** The text `sep + column + " = ?"` appended once per binding, in order. */
  function Clause(sep: string, bs: seq<Binding>): string
    decreases |bs|
  {
    if bs == [] then ""
    else Clause(sep, bs[..|bs| - 1]) + Part(sep, bs[|bs| - 1], "?")
  }

  /** The arguments a list of bindings contributes, in order. */
  function Values(bs: seq<Binding>): (vs: seq<SqlValue>)
    ensures |vs| == |bs|
    ensures forall i :: 0 <= i < |bs| ==> vs[i] == bs[i].value
    decreases |bs|
  {
    if bs == [] then [] else Values(bs[..|bs| - 1]) + [bs[|bs| - 1].value]
  }

  /** Appending a binding appends its text to the clause. */
  lemma ClauseAppend(sep: string, bs: seq<Binding>, b: Binding)
    ensures Clause(sep, bs + [b]) == Clause(sep, bs) + Part(sep, b, "?")
    ensures Values(bs + [b]) == Values(bs) + [b.value]
  {
    assert (bs + [b])[..|bs|] == bs;
  }

  /** A clause holds exactly one `?` per binding, so one per argument it contributes. */
  lemma {:induction false} ClausePlaceholders(sep: string, bs: seq<Binding>)
    requires NoMark(sep) && PlainColumns(bs)
    ensures Count(Clause(sep, bs), '?') == |bs| == |Values(bs)|
    decreases |bs|
  {
    if bs != [] {
      var init := bs[..|bs| - 1];
      var last := bs[|bs| - 1];
      ClausePlaceholders(sep, init);
      NoMarkCount(sep);
      NoMarkCount(last.column);
      CountConcat(Clause(sep, init), Part(sep, last, "?"), '?');
      CountConcat(sep, last.column, '?');
      CountConcat(sep + last.column, " = ", '?');
      CountConcat(sep + last.column + " = ", "?", '?');
      assert Count(" = ", '?') == 0 && Count("?", '?') == 1;
    }
  }

  /** A statement is fixed text around a clause: its placeholders are the fixed ones plus one per binding. */
  lemma ClauseBetween(head: string, sep: string, bs: seq<Binding>, tail: string)
    requires NoMark(sep) && PlainColumns(bs)
    ensures Count(head + Clause(sep, bs) + tail, '?') == Count(head, '?') + |bs| + Count(tail, '?')
  {
    ClausePlaceholders(sep, bs);
    CountConcat(head, Clause(sep, bs), '?');
    CountConcat(head + Clause(sep, bs), tail, '?');
  }

  /** Fixed text with a single placeholder. */
  lemma OneMark(a: string, b: string)
    requires NoMark(a) && NoMark(b)
    ensures Count(a + "?" + b, '?') == 1
  {
    NoMarkCount(a);
    NoMarkCount(b);
    assert Count("?", '?') == 1;
    CountConcat(a, "?", '?');
    CountConcat(a + "?", b, '?');
  }

  /** PostgreSQL's numbered placeholder `$k`. */
  function Mark(k: nat): string {
    "$" + NatToString(k)
  }

  /** The text `sep + column + " = $n"` per binding, numbered consecutively from `first`. */
  function NumberedClause(sep: string, bs: seq<Binding>, first: nat): string
    decreases |bs|
  {
    if bs == [] then ""
    else NumberedClause(sep, bs[..|bs| - 1], first) + Part(sep, bs[|bs| - 1], Mark(first + |bs| - 1))
  }

  lemma NumberedClauseAppend(sep: string, bs: seq<Binding>, b: Binding, first: nat)
    ensures NumberedClause(sep, bs + [b], first) == NumberedClause(sep, bs, first) + Part(sep, b, Mark(first + |bs|))
  {
    assert (bs + [b])[..|bs|] == bs;
  }

  /** Numbering runs on across a split: the second part continues where the first stopped. */
  lemma {:induction false} NumberedClauseConcat(sep: string, a: seq<Binding>, b: seq<Binding>, first: nat)
    ensures NumberedClause(sep, a + b, first) == NumberedClause(sep, a, first) + NumberedClause(sep, b, first + |a|)
    decreases |b|
  {
    if b == [] {
      assert a + b == a;
    } else {
      var n := |b| - 1;
      var k := first + |a| + n;
      var x := Part(sep, b[n], Mark(k));
      var l, m := NumberedClause(sep, a, first), NumberedClause(sep, b[..n], first + |a|);
      calc {
        NumberedClause(sep, a + b, first);
        { assert a + b == (a + b[..n]) + [b[n]];
          NumberedClauseAppend(sep, a + b[..n], b[n], first); }
        NumberedClause(sep, a + b[..n], first) + x;
        { NumberedClauseConcat(sep, a, b[..n], first); }
        (l + m) + x;
        l + (m + x);
        { assert b == b[..n] + [b[n]];
          NumberedClauseAppend(sep, b[..n], b[n], first + |a|); }
        l + NumberedClause(sep, b, first + |a|);
      }
    }
  }

  /** So the i-th binding of a clause numbered from `first` carries the placeholder $(first + i). */
  lemma NumberedClauseAt(sep: string, bs: seq<Binding>, first: nat, i: nat)
    requires i < |bs|
    ensures NumberedClause(sep, bs, first) ==
      NumberedClause(sep, bs[..i], first) + Part(sep, bs[i], Mark(first + i)) +
      NumberedClause(sep, bs[i + 1..], first + i + 1)
  {
    assert bs == bs[..i] + [bs[i]] + bs[i + 1..];
    NumberedClauseConcat(sep, bs[..i] + [bs[i]], bs[i + 1..], first);
    NumberedClauseConcat(sep, bs[..i], [bs[i]], first);
    assert [bs[i]][..0] == [];
  }

  /**
   * A numbered builder step: `argCount++; query += fmt.Sprintf(sep + column + " = $%d", argCount);
   * args = append(args, value)`, for a query that is `head` followed by the clause
   * of `bs`, numbered after the `headArgs` placeholders of the head.
   */
  method AppendNumbered(query: string, args: seq<SqlValue>, argCount: nat, sep: string, b: Binding,
                        ghost head: string, ghost headArgs: seq<SqlValue>, ghost first: nat, ghost bs: seq<Binding>)
    returns (query': string, args': seq<SqlValue>, argCount': nat)
    requires argCount == |args| && first == |headArgs| + 1
    requires query == head + NumberedClause(sep, bs, first) && args == headArgs + Values(bs)
    ensures argCount' == argCount + 1 == |args'|
    ensures query' == head + NumberedClause(sep, bs + [b], first) && args' == headArgs + Values(bs + [b])
  {
    argCount' := argCount + 1;
    assert argCount' == first + |bs|;
    NumberedClauseAppend(sep, bs, b, first);
    ClauseAppend(sep, bs, b);
    query' := query + Part(sep, b, Mark(argCount'));
    assert query' == head + (NumberedClause(sep, bs, first) + Part(sep, b, Mark(first + |bs|)));
    args' := args + [b.value];
    assert args' == headArgs + (Values(bs) + [b.value]);
  }

  /** AppendNumbered for an optional text field. */
  method AppendNumberedText(query: string, args: seq<SqlValue>, argCount: nat, sep: string, column: string, field: Option<string>,
                            ghost head: string, ghost headArgs: seq<SqlValue>, ghost first: nat, ghost bs: seq<Binding>)
    returns (query': string, args': seq<SqlValue>, argCount': nat)
    requires argCount == |args| && first == |headArgs| + 1
    requires query == head + NumberedClause(sep, bs, first) && args == headArgs + Values(bs)
    ensures argCount' == |args'|
    ensures query' == head + NumberedClause(sep, bs + TextBinding(column, field), first)
    ensures args' == headArgs + Values(bs + TextBinding(column, field))
  {
    query', args', argCount' := query, args, argCount;
    if field.Some? {
      query', args', argCount' := AppendNumbered(query, args, argCount, sep, Binding(column, TextValue(field.value)), head, headArgs, first, bs);
    } else {
      assert bs + TextBinding(column, field) == bs;
    }
  }

  /** AppendNumbered for an optional integer field. */
  method AppendNumberedInt(query: string, args: seq<SqlValue>, argCount: nat, sep: string, column: string, field: Option<int>,
                           ghost head: string, ghost headArgs: seq<SqlValue>, ghost first: nat, ghost bs: seq<Binding>)
    returns (query': string, args': seq<SqlValue>, argCount': nat)
    requires argCount == |args| && first == |headArgs| + 1
    requires query == head + NumberedClause(sep, bs, first) && args == headArgs + Values(bs)
    ensures argCount' == |args'|
    ensures query' == head + NumberedClause(sep, bs + IntBinding(column, field), first)
    ensures args' == headArgs + Values(bs + IntBinding(column, field))
  {
    query', args', argCount' := query, args, argCount;
    if field.Some? {
      query', args', argCount' := AppendNumbered(query, args, argCount, sep, Binding(column, IntValue(field.value)), head, headArgs, first, bs);
    } else {
      assert bs + IntBinding(column, field) == bs;
    }
  }

  /** The columns a list of bindings names. */
  function Columns(bs: seq<Binding>): set<string> {
    set i | 0 <= i < |bs| :: bs[i].column
  }

  /** Each binding's column occurs once: what PostgreSQL demands of a SET list. */
  predicate DistinctColumns(bs: seq<Binding>) {
    forall i, j :: 0 <= i < j < |bs| ==> bs[i].column != bs[j].column
  }

  lemma DistinctConcat(a: seq<Binding>, b: seq<Binding>)
    requires DistinctColumns(a) && DistinctColumns(b) && Columns(a) !! Columns(b)
    ensures DistinctColumns(a + b)
  {
    forall i, j | 0 <= i < j < |a + b|
      ensures (a + b)[i].column != (a + b)[j].column
    {
      if j >= |a| {
        assert (a + b)[j] == b[j - |a|];
        if i >= |a| {
          assert (a + b)[i] == b[i - |a|];
        } else {
          assert (a + b)[i].column in Columns(a);
          assert (a + b)[j].column in Columns(b);
        }
      }
    }
  }

  lemma ColumnsConcat(a: seq<Binding>, b: seq<Binding>)
    ensures Columns(a + b) == Columns(a) + Columns(b)
  {
    forall c | c in Columns(a + b)
      ensures c in Columns(a) + Columns(b)
    {
      var i :| 0 <= i < |a + b| && (a + b)[i].column == c;
      if i >= |a| {
        assert (a + b)[i] == b[i - |a|];
      }
    }
    forall c | c in Columns(a) + Columns(b)
      ensures c in Columns(a + b)
    {
      if c in Columns(a) {
        var i :| 0 <= i < |a| && a[i].column == c;
        assert (a + b)[i] == a[i];
      } else {
        var i :| 0 <= i < |b| && b[i].column == c;
        assert (a + b)[|a| + i] == b[i];
      }
    }
  }


  /**
   * A builder step: `query += sep + column + " = ?"` with `args = append(args, value)`,
   * for a query that is `head` followed by the clause of the bindings `bs` so far.
   */
  method AppendBinding(query: string, args: seq<SqlValue>, sep: string, b: Binding,
                       ghost head: string, ghost headArgs: seq<SqlValue>, ghost bs: seq<Binding>)
    returns (query': string, args': seq<SqlValue>)
    requires query == head + Clause(sep, bs) && args == headArgs + Values(bs)
    ensures query' == head + Clause(sep, bs + [b]) && args' == headArgs + Values(bs + [b])
  {
    ClauseAppend(sep, bs, b);
    query' := query + Part(sep, b, "?");
    args' := args + [b.value];
  }

  /** A binding for an optional text field: present only when the field is set. */
  function TextBinding(column: string, field: Option<string>): (bs: seq<Binding>)
    ensures |bs| <= 1
    ensures bs != [] <==> field.Some?
    ensures bs != [] ==> bs == [Binding(column, TextValue(field.value))]
  {
    if field.Some? then [Binding(column, TextValue(field.value))] else []
  }

  /** A builder's `if field != nil { query += sep + column + " = ?"; args = append(args, *field) }`. */
  method AppendText(query: string, args: seq<SqlValue>, sep: string, column: string, field: Option<string>,
                    ghost head: string, ghost headArgs: seq<SqlValue>, ghost bs: seq<Binding>)
    returns (query': string, args': seq<SqlValue>)
    requires query == head + Clause(sep, bs) && args == headArgs + Values(bs)
    ensures query' == head + Clause(sep, bs + TextBinding(column, field))
    ensures args' == headArgs + Values(bs + TextBinding(column, field))
  {
    query', args' := query, args;
    if field.Some? {
      query', args' := AppendBinding(query, args, sep, Binding(column, TextValue(field.value)), head, headArgs, bs);
    } else {
      assert bs + TextBinding(column, field) == bs;
    }
  }

  /** A binding for an optional integer field. */
  function IntBinding(column: string, field: Option<int>): (bs: seq<Binding>)
    ensures |bs| <= 1
    ensures bs != [] <==> field.Some?
    ensures bs != [] ==> bs == [Binding(column, IntValue(field.value))]
  {
    if field.Some? then [Binding(column, IntValue(field.value))] else []
  }

  /** A builder's `if field != nil { query += sep + column + " = ?"; args = append(args, *field) }`. */
  method AppendInt(query: string, args: seq<SqlValue>, sep: string, column: string, field: Option<int>,
                   ghost head: string, ghost headArgs: seq<SqlValue>, ghost bs: seq<Binding>)
    returns (query': string, args': seq<SqlValue>)
    requires query == head + Clause(sep, bs) && args == headArgs + Values(bs)
    ensures query' == head + Clause(sep, bs + IntBinding(column, field))
    ensures args' == headArgs + Values(bs + IntBinding(column, field))
  {
    query', args' := query, args;
    if field.Some? {
      query', args' := AppendBinding(query, args, sep, Binding(column, IntValue(field.value)), head, headArgs, bs);
    } else {
      assert bs + IntBinding(column, field) == bs;
    }
  }

  /**
   * A SET list applied to a row left to right with the table's `assign`, so
   * the rightmost assignment of a column is the one that stays (SQLite's rule
   * for a column named twice).
   */
  function ApplySet<R>(row: R, bs: seq<Binding>, assign: (R, Binding) -> R): R
    decreases |bs|
  {
    if bs == [] then row else assign(ApplySet(row, bs[..|bs| - 1], assign), bs[|bs| - 1])
  }

  lemma {:induction false} ApplySetConcat<R>(row: R, a: seq<Binding>, b: seq<Binding>, assign: (R, Binding) -> R)
    ensures ApplySet(row, a + b, assign) == ApplySet(ApplySet(row, a, assign), b, assign)
    decreases |b|
  {
    if b == [] {
      assert a + b == a;
    } else {
      var n := |b| - 1;
      assert (a + b)[..|a| + n] == a + b[..n];
      assert (a + b)[|a| + n] == b[n];
      ApplySetConcat(row, a, b[..n], assign);
    }
  }

  lemma ApplySetSingle<R>(row: R, x: Binding, assign: (R, Binding) -> R)
    ensures ApplySet(row, [x], assign) == assign(row, x)
  {
    assert [x][..0] == [];
  }

  lemma ApplySetPair<R>(row: R, x: Binding, y: Binding, assign: (R, Binding) -> R)
    ensures ApplySet(row, [x, y], assign) == assign(assign(row, x), y)
  {
    assert [x, y][..1] == [x];
    ApplySetSingle(row, x, assign);
  }

  /** The fixed head of the SQLite UPDATE statements: updated_at is always the first assignment. */
  function UpdateHeadOf(table: string): string {
    "UPDATE " + table + " SET updated_at = " + "?"
  }

  /** The head holds one placeholder, for updated_at, whatever plain table name it names. */
  lemma UpdateHeadPlaceholders(table: string)
    requires NoMark(table)
    ensures Count(UpdateHeadOf(table), '?') == 1
  {
    assert NoMark("UPDATE ") && NoMark(" SET updated_at = ") && NoMark("");
    NoMarkConcat("UPDATE ", table);
    NoMarkConcat("UPDATE " + table, " SET updated_at = ");
    OneMark("UPDATE " + table + " SET updated_at = ", "");
    assert "UPDATE " + table + " SET updated_at = " + "?" + "" == UpdateHeadOf(table);
  }

  /** The fixed WHERE clause of the SQLite UPDATE statements. */
  const WhereLiveId: string := " WHERE id = " + "?" + " AND deleted_at IS NULL"

  lemma WhereLiveIdPlaceholders()
    ensures Count(WhereLiveId, '?') == 1
  {
    assert NoMark(" WHERE id = ") && NoMark(" AND deleted_at IS NULL");
    OneMark(" WHERE id = ", " AND deleted_at IS NULL");
  }

  lemma CommaIsPlain()
    ensures NoMark(", ")
  {
  }

  /**
   * A SQLite UPDATE statement for a plain table name: updated_at, one
   * assignment per binding, the id; one placeholder for each.
   */
  lemma UpdateStatementPlaceholders(table: string, bs: seq<Binding>)
    requires NoMark(table) && PlainColumns(bs)
    ensures Count(UpdateHeadOf(table) + Clause(", ", bs) + WhereLiveId, '?') == |bs| + 2
  {
    UpdateHeadPlaceholders(table);
    WhereLiveIdPlaceholders();
    CommaIsPlain();
    ClauseBetween(UpdateHeadOf(table), ", ", bs, WhereLiveId);
  }
}
