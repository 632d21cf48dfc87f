/**
 * The record types of the store layer (store/model.go, store/instance_setting.go).
 * Instants and durations are integers in seconds; a nil pointer field is `None`.
 */
module StoreModel {
  import opened Wrappers

  /** store.Role is a plain string; only two values are valid. */
  type Role = string

  const RoleAdmin: Role := "admin"
  const RoleUser: Role := "user"

  /** IsValidRole */
  predicate IsValidRole(role: Role): (ok: bool)
    ensures ok <==> role == "admin" || role == "user"
  {
    role == RoleAdmin || role == RoleUser
  }

  /** Role.String: the role's own text. */
  function RoleString(role: Role): (s: string)
    ensures |s| == |role| && forall i :: 0 <= i < |s| ==> s[i] == role[i]
  {
    role
  }

  lemma ValidRolesAreExactlyAdminAndUser(role: Role)
    ensures RoleAdmin != RoleUser
    ensures IsValidRole(role) <==> role in {"admin", "user"}
  {
  }

  /** A row of the users table (store.User); deletedAt is set by a soft delete. */
  datatype User = User(
    id: int,
    username: string,
    nickname: string,
    password: string,
    phone: string,
    email: string,
    role: Role,
    passwordExpires: int,
    createdAt: int,
    updatedAt: int,
    deletedAt: Option<int>)

  /** store.UpdateUser: only id is mandatory, a None field is left unchanged. */
  datatype UpdateUser = UpdateUser(
    id: int,
    username: Option<string>,
    nickname: Option<string>,
    password: Option<string>,
    phone: Option<string>,
    email: Option<string>,
    role: Option<Role>,
    passwordExpires: Option<int>,
    updatedAt: Option<int>)

  /** The update that changes nothing but the row's updated_at. */
  function NoChange(id: int): UpdateUser {
    UpdateUser(id, None, None, None, None, None, None, None, None)
  }

  /**
   * store.FindUser. The Go struct declares only ID, Username and Email, yet
   * callers set a Role filter; the model carries the optional role.
   */
  datatype FindUser = FindUser(
    id: Option<int>,
    username: Option<string>,
    email: Option<string>,
    role: Option<Role>)

  function FindById(id: int): FindUser {
    FindUser(Some(id), None, None, None)
  }

  datatype DeleteUser = DeleteUser(id: int)

  /** A row of the refresh_tokens table (store.RefreshToken). */
  datatype RefreshToken = RefreshToken(
    id: int,
    userId: int,
    token: string,
    expiresAt: int,
    revoked: bool,
    createdAt: int,
    updatedAt: int,
    deletedAt: Option<int>)

  datatype CreateRefreshToken = CreateRefreshToken(userId: int, token: string, expiresAt: int)

  datatype UpdateRefreshToken = UpdateRefreshToken(id: int, revoked: Option<bool>)

  datatype FindRefreshToken = FindRefreshToken(id: Option<int>, userId: Option<int>, token: Option<string>)

  datatype DeleteRefreshToken = DeleteRefreshToken(id: int)

  /** A raw row of the instance settings table (store.InstanceSetting). */
  datatype InstanceSettingRow = InstanceSettingRow(name: string, value: string, description: string)

  datatype FindInstanceSetting = FindInstanceSetting(name: string)

  datatype DeleteInstanceSetting = DeleteInstanceSetting(name: string)
}
