/**
 * store/db/mysql/instance_setting.go: the SELECT text ListInstanceSettings
 * builds and what the system_setting table answers to it. The statement's
 * line breaks and indentation are written as single spaces. Upsert and delete
 * on the table are Database.UpsertRow and Database.RemoveSetting.
 */
module MysqlInstanceSetting {
  import opened StoreModel
  import opened Database
  import opened Strings
  import opened Sql

  const ListHead: string := "SELECT name, value, " + "description FROM system_setting " + "WHERE 1 = 1"

  lemma ListHeadPlaceholders()
    ensures Count(ListHead, '?') == 0
  {
    var a, b, c := "SELECT name, value, ", "description FROM system_setting ", "WHERE 1 = 1";
    assert NoMark(a) && NoMark(b) && NoMark(c);
    NoMarkConcat(a, b);
    NoMarkConcat(a + b, c);
    NoMarkCount(ListHead);
  }

  /** The condition after "1 = 1": the name, only when it is not empty. */
  function NameConditions(find: FindInstanceSetting): seq<Binding> {
    if find.name != "" then [Binding("name", TextValue(find.name))] else []
  }

  function ListSettingsQuery(find: FindInstanceSetting): string {
    ListHead + Clause(" AND ", NameConditions(find))
  }

  /**
   * ListInstanceSettings' query builder: " AND name = ?" with its one
   * argument exactly when the name is not empty, and one `?` per argument.
   */
  method BuildListInstanceSettings(find: FindInstanceSetting) returns (query: string, args: seq<SqlValue>)
    ensures query == ListSettingsQuery(find) && args == Values(NameConditions(find))
    ensures find.name != "" <==> args == [TextValue(find.name)]
    ensures find.name == "" <==> query == ListHead && args == []
    ensures Count(query, '?') == |args|
  {
    query := ListHead;
    args := [];
    if find.name != "" {
      query := query + " AND name = ?";
      args := args + [TextValue(find.name)];
      var b := Binding("name", TextValue(find.name));
      assert [b][..0] == [];
      assert Clause(" AND ", [b]) == " AND name = ?";
    }
    ListSettingsPlaceholders(find);
  }

  lemma ListSettingsPlaceholders(find: FindInstanceSetting)
    ensures Count(ListSettingsQuery(find), '?') == |Values(NameConditions(find))|
  {
    ListHeadPlaceholders();
    assert NoMark(" AND ") && NoMark("name");
    ClauseBetween(ListHead, " AND ", NameConditions(find), "");
    assert ListHead + Clause(" AND ", NameConditions(find)) + "" == ListSettingsQuery(find);
  }

  predicate SettingSatisfies(s: InstanceSettingRow, conds: seq<Binding>) {
    forall i :: 0 <= i < |conds| ==> conds[i].column == "name" && conds[i].value == TextValue(s.name)
  }

  /** The rows "WHERE 1 = 1" and the conditions select, in table order. */
  function SelectSettingsWhere(rows: seq<InstanceSettingRow>, conds: seq<Binding>): seq<InstanceSettingRow> {
    if rows == [] then []
    else (if SettingSatisfies(rows[0], conds) then [rows[0]] else []) + SelectSettingsWhere(rows[1..], conds)
  }

  /** The statement returns exactly the rows the store's ListInstanceSettings promises. */
  lemma {:induction false} SelectSettingsWhereIsSelectSettings(rows: seq<InstanceSettingRow>, find: FindInstanceSetting)
    ensures SelectSettingsWhere(rows, NameConditions(find)) == SelectSettings(rows, find.name)
  {
    if rows != [] {
      var c := NameConditions(find);
      assert SettingSatisfies(rows[0], c) <==> find.name == "" || rows[0].name == find.name by {
        if find.name != "" {
          assert c[0] == Binding("name", TextValue(find.name));
        }
      }
      SelectSettingsWhereIsSelectSettings(rows[1..], find);
    }
  }
}
