/**
 * web/src/utils/role.ts: the label the web client shows for the API's Role
 * enum, and which enum values count as real roles. The enum is the same
 * v1 Role the server converts with server/auth/role.go (ProtoRole.PbRole).
 */
module WebRole {
  import StoreModel
  import opened ProtoRole

  const AdminLabel: string := "管理员"
  const UserLabel: string := "用户"
  const UnknownLabel: string := "未知"

  /** roleToString: ADMIN and USER have their own labels; UNSPECIFIED and any other number are unknown. */
  function RoleLabel(role: PbRole): (text: string)
    ensures text in {AdminLabel, UserLabel, UnknownLabel}
    ensures text == AdminLabel <==> role == PbAdmin
    ensures text == UserLabel <==> role == PbUser
  {
    match role
    case PbAdmin => AdminLabel
    case PbUser => UserLabel
    case _ => UnknownLabel
  }

  /** isValidRole: exactly ADMIN or USER. */
  predicate IsValidRole(role: PbRole): (ok: bool)
    ensures ok ==> !role.PbUnspecified? && !role.PbNumber?
    ensures !role.PbUnspecified? && !role.PbNumber? ==> ok
  {
    role == PbAdmin || role == PbUser
  }

  /** A role is valid exactly when it has a label of its own. */
  lemma ValidIffLabelled(role: PbRole)
    ensures IsValidRole(role) <==> RoleLabel(role) != UnknownLabel
  {
  }

  /** The two valid roles have different labels. */
  lemma LabelsDistinguishValidRoles(a: PbRole, b: PbRole)
    requires IsValidRole(a) && IsValidRole(b) && RoleLabel(a) == RoleLabel(b)
    ensures a == b
  {
  }

  /**
   * The web client accepts exactly the enum values the server produces for
   * a valid store role (StringToRole in server/auth/role.go).
   */
  lemma WebValidityMatchesServer(role: StoreModel.Role)
    ensures IsValidRole(StringToRole(role)) <==> StoreModel.IsValidRole(role)
  {
  }
}
