/** server/auth/role.go: store roles to and from the API's Role enum. */
module ProtoRole {
  import opened StoreModel

  /** v1pb.Role: ROLE_UNSPECIFIED, ROLE_ADMIN, ROLE_USER, or any other enum number. */
  datatype PbRole = PbUnspecified | PbAdmin | PbUser | PbNumber(n: int)

  /** StringToRole: "admin" and "user" map to their enum values, anything else to ROLE_UNSPECIFIED. */
  function StringToRole(role: Role): (p: PbRole)
    ensures p.PbUnspecified? <==> !IsValidRole(role)
    ensures !p.PbNumber?
  {
    if role == RoleAdmin then PbAdmin
    else if role == RoleUser then PbUser
    else PbUnspecified
  }

  /** RoleToString: the two known enum values map back; anything else gives "". */
  function RoleToString(p: PbRole): (role: Role)
    ensures IsValidRole(role) <==> p == PbAdmin || p == PbUser
    ensures !IsValidRole(role) ==> role == ""
  {
    match p
    case PbAdmin => RoleAdmin
    case PbUser => RoleUser
    case _ => ""
  }

  /** Valid store roles survive the trip through the enum. */
  lemma StoreRoleRoundTrip(role: Role)
    requires IsValidRole(role)
    ensures RoleToString(StringToRole(role)) == role
  {
  }

  /** The two meaningful enum values survive the trip through the store role. */
  lemma EnumRoleRoundTrip(p: PbRole)
    requires p == PbAdmin || p == PbUser
    ensures StringToRole(RoleToString(p)) == p
  {
  }
}
