/** server/common/acl.go: the procedures that need no authentication. */
module Acl {
  const AuthLogin: string := "/goserver.api.v1.AuthService/Login"
  const AuthRefreshToken: string := "/goserver.api.v1.AuthService/RefreshToken"
  const AuthValidateToken: string := "/goserver.api.v1.AuthService/ValidateToken"
  const AuthLogout: string := "/goserver.api.v1.AuthService/Logout"
  const UserRegisterUser: string := "/goserver.api.v1.UserService/RegisterUser"
  const UserGetUserProfile: string := "/goserver.api.v1.UserService/GetUserProfile"
  const UserUpdateUserProfile: string := "/goserver.api.v1.UserService/UpdateUserProfile"
  const UserChangePassword: string := "/goserver.api.v1.UserService/ChangePassword"
  const InstanceGetInstanceProfile: string := "/goserver.api.v1.InstanceService/GetInstanceProfile"

  const PublicMethods: set<string> := {AuthLogin, AuthRefreshToken, AuthValidateToken, UserRegisterUser}

  /** IsPublicMethod: exact membership in the allowlist. */
  predicate IsPublicMethod(procedure: string): (b: bool)
    ensures b ==> |procedure| > 17 && procedure[..17] == "/goserver.api.v1."
    ensures b ==> procedure != AuthLogout
  {
    procedure in PublicMethods
  }

  /** Exactly four procedures are public. */
  lemma ExactlyFourPublicMethods(procedure: string)
    ensures |PublicMethods| == 4
    ensures IsPublicMethod(procedure) <==>
      procedure == AuthLogin || procedure == AuthRefreshToken ||
      procedure == AuthValidateToken || procedure == UserRegisterUser
  {
  }

  /** Logout, the profile and password calls and the instance profile all need authentication. */
  lemma ProtectedMethods()
    ensures !IsPublicMethod(AuthLogout)
    ensures !IsPublicMethod(UserGetUserProfile) && !IsPublicMethod(UserUpdateUserProfile)
    ensures !IsPublicMethod(UserChangePassword)
    ensures !IsPublicMethod(InstanceGetInstanceProfile)
  {
  }

  /** Matching is exact: case, the leading slash and trailing text all matter. */
  lemma MatchingIsExact()
    ensures !IsPublicMethod("/goserver.api.v1.authservice/login")
    ensures !IsPublicMethod("goserver.api.v1.AuthService/Login")
    ensures !IsPublicMethod(AuthLogin + "/")
  {
    assert AuthLogin + "/" != AuthLogin by {
      assert |AuthLogin + "/"| != |AuthLogin|;
    }
  }
}
