/** The client's authentication records. */
module AuthModel {
  import opened Wrappers

  datatype AuthRequest = AuthRequest(username: string, password: string)

  /** The token pair the identity provider issues. */
  datatype AuthResponse = AuthResponse(access: string, refresh: string)

  /** A user: `username` and `email` are mandatory, everything else optional. */
  datatype User = User(
    id: Option<int>,
    username: string,
    email: string,
    firstName: Option<string>,
    lastName: Option<string>,
    isStaff: Option<bool>,
    isSuperuser: Option<bool>,
    isAdmin: Option<bool>,
    groups: Option<seq<string>>)

  /** The body of a renewal request: the refresh token only. */
  datatype RefreshTokenRequest = RefreshTokenRequest(refresh: string)

  datatype UserRole = Admin | Patient | Unknown

  /** The string value of each role, as route data carries it. */
  function RoleName(role: UserRole): (name: string)
    ensures role == Admin <==> name == "admin"
    ensures role == Patient <==> name == "patient"
    ensures role == Unknown <==> name == "unknown"
  {
    match role
    case Admin => "admin"
    case Patient => "patient"
    case Unknown => "unknown"
  }
}
