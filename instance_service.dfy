/**
 * server/service/instance_service.go: the instance profile is the service's
 * version and demo flag plus the first admin the store lists. The store read
 * is ListUsers with a Role filter over the users table `rows`; `fault` is that
 * read failing.
 */
module InstanceService {
  import opened Wrappers
  import opened Errors
  import opened StoreModel
  import opened Database
  import opened ProtoRole
  import opened ApiUsers

  datatype InstanceProfile = InstanceProfile(version: string, demo: bool, admin: Option<ApiUser>)

  /** FindUser{Role: "admin"} */
  function AdminFind(): FindUser {
    FindUser(None, None, None, Some(RoleAdmin))
  }

  function GetInstanceProfile(version: string, demo: bool, rows: seq<User>, fault: bool): (r: Result<InstanceProfile>)
    ensures fault <==> r.Err?
    ensures fault ==> r == Err(ConnectError(Internal, DbError("list users").Text()))
    ensures r.Ok? ==> r.value.version == version && r.value.demo == demo
    ensures r.Ok? && r.value.admin.Some? ==> r.value.admin.value.role == PbAdmin
  {
    if fault then Err(ConnectError(Internal, DbError("list users").Text()))
    else
      var admins := SelectUsers(rows, AdminFind());
      assert |admins| > 0 ==> admins[0] in admins;
      Ok(InstanceProfile(version, demo, if |admins| > 0 then Some(ToApiUser(admins[0])) else None))
  }

  /** The profile names an admin exactly when some live row has role "admin", and then the first such row. */
  lemma AdminIsFirstLiveAdmin(version: string, demo: bool, rows: seq<User>)
    ensures var p := GetInstanceProfile(version, demo, rows, false).value;
      (p.admin.Some? <==> exists u :: u in rows && Live(u) && u.role == RoleAdmin) &&
      (p.admin.Some? ==> exists i :: 0 <= i < |rows| && p.admin.value == ToApiUser(rows[i]) &&
                          Live(rows[i]) && rows[i].role == RoleAdmin &&
                          forall j :: 0 <= j < i ==> !(Live(rows[j]) && rows[j].role == RoleAdmin))
  {
    var p := GetInstanceProfile(version, demo, rows, false).value;
    if u :| u in rows && Live(u) && u.role == RoleAdmin {
      SelectUsersComplete(rows, AdminFind(), u);
    }
    if p.admin.Some? {
      var i := FirstAdminPosition(rows);
    }
  }

  lemma {:induction false} FirstAdminPosition(rows: seq<User>) returns (i: int)
    requires |SelectUsers(rows, AdminFind())| > 0
    ensures 0 <= i < |rows| && SelectUsers(rows, AdminFind())[0] == rows[i]
    ensures Live(rows[i]) && rows[i].role == RoleAdmin
    ensures forall j :: 0 <= j < i ==> !(Live(rows[j]) && rows[j].role == RoleAdmin)
  {
    if MatchesFind(rows[0], AdminFind()) {
      i := 0;
    } else {
      assert SelectUsers(rows, AdminFind()) == SelectUsers(rows[1..], AdminFind());
      var k := FirstAdminPosition(rows[1..]);
      i := k + 1;
    }
  }
}
