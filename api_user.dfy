/** The API's User message (v1pb.User) as every service fills it from a store row. */
module ApiUsers {
  import opened StoreModel
  import opened ProtoRole

  /** v1pb.User: the public fields of a user, with the role as the API enum; the password never leaves the store. */
  datatype ApiUser = ApiUser(
    id: int,
    username: string,
    email: string,
    nickname: string,
    phone: string,
    role: PbRole,
    passwordExpiresAt: int,
    createdAt: int,
    updatedAt: int)

  function ToApiUser(u: User): (a: ApiUser)
    ensures a.id == u.id && a.username == u.username && a.email == u.email
    ensures a.nickname == u.nickname && a.phone == u.phone
    ensures a.passwordExpiresAt == u.passwordExpires && a.createdAt == u.createdAt && a.updatedAt == u.updatedAt
    ensures a.role.PbUnspecified? <==> !IsValidRole(u.role)
    ensures IsValidRole(u.role) ==> RoleToString(a.role) == u.role
  {
    ApiUser(u.id, u.username, u.email, u.nickname, u.phone, StringToRole(u.role),
            u.passwordExpires, u.createdAt, u.updatedAt)
  }
}
