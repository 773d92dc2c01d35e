/** The client's session: what it keeps in local storage (the access token,
    the refresh token and the current user under the keys `auth_token`,
    `refresh_token` and `current_user`), the role derived from the stored
    user, the renewal timer, and the transitions login, logout, token
    renewal, user verification and start-up.

    The identity provider's endpoints are given as functions from the
    request to its outcome, the current-user endpoint as its outcome, the
    clock as `now` in milliseconds, and the JWT decoder as a function from
    the token to its claims (`None` when decoding throws). */
module Session {
  import opened Wrappers
  import opened AuthModel

  /** The claims read from an access token; `exp` is a NumericDate, in
      seconds (section 4.1.4 of RFC 7519). */
  datatype JwtClaims = JwtClaims(exp: int, userId: int, username: string, email: Option<string>, isStaff: Option<bool>)

  /** The three storage keys; an absent key is `None`. */
  datatype Storage = Storage(token: Option<string>, refreshToken: Option<string>, user: Option<User>)

  /** Why a session transition failed. */
  datatype AuthFailure = Rejected(error: HttpError) | NoRefreshToken | UndecodableToken

  /** JavaScript truthiness of a stored string: absent and "" are falsy. */
  predicate Truthy(s: Option<string>)
  {
    s.Some? && s.value != ""
  }

  predicate InAdminGroup(u: User)
  {
    u.groups.Some? && "admin" in u.groups.value
  }

  /** getUserRole over the saved user. */
  function RoleOf(user: Option<User>): (role: UserRole)
    ensures role == Unknown <==> user.None?
    ensures role == Admin <==> user.Some? && (user.value.isStaff == Some(true) || InAdminGroup(user.value))
    ensures role == Patient <==> user.Some? && user.value.isStaff != Some(true) && !InAdminGroup(user.value)
  {
    match user
    case None => Unknown
    case Some(u) => if u.isStaff == Some(true) || InAdminGroup(u) then Admin else Patient
  }

  /** checkIsAdmin over the saved user. */
  predicate IsAdminUser(user: Option<User>)
  {
    user.Some? &&
    (user.value.isStaff == Some(true) || user.value.isSuperuser == Some(true)
     || user.value.isAdmin == Some(true) || InAdminGroup(user.value))
  }

  /** The two admin predicates: the role test is the stricter one. */
  lemma AdminRoleImpliesCheckIsAdmin(user: Option<User>)
    ensures RoleOf(user) == Admin ==> IsAdminUser(user)
    ensures !IsAdminUser(user) ==> RoleOf(user) != Admin
  {
  }

  /** ... and strictly so: a superuser that is not staff passes checkIsAdmin
      but has the patient role. */
  lemma SuperuserIsAdminWithPatientRole(u: User)
    requires u.isSuperuser == Some(true) && u.isStaff == None && u.groups == None
    ensures IsAdminUser(Some(u)) && RoleOf(Some(u)) == Patient
  {
  }

  /** The delay, in milliseconds, after which the renewal timer fires: five
      minutes before expiry, and at once when that moment has passed. */
  function RenewalDelay(exp: int, now: int): (delay: int)
    ensures delay >= 0
    ensures delay == 0 <==> exp * 1000 - now <= 5 * 60 * 1000
    ensures delay > 0 ==> now + delay + 5 * 60 * 1000 == exp * 1000
  {
    var timeUntilExpiry := exp * 1000 - now;
    var refreshTime := timeUntilExpiry - 5 * 60 * 1000;
    if refreshTime > 0 then refreshTime else 0
  }

  /** A token that expires in ten minutes is renewed after five. */
  lemma RenewedHalfwayThroughTenMinutes(exp: int, now: int)
    requires exp * 1000 == now + 10 * 60 * 1000
    ensures RenewalDelay(exp, now) == 5 * 60 * 1000
  {
  }

  /** The user login builds from the access token's claims. */
  function ClaimsUser(c: JwtClaims): (u: User)
    ensures u.id == Some(c.userId) && u.username == c.username && u.isStaff == c.isStaff
    ensures u.email == if c.email.Some? then c.email.value else ""
    ensures u.firstName == None && u.lastName == None && u.isSuperuser == None
    ensures u.isAdmin == None && u.groups == None
  {
    User(Some(c.userId), c.username, if c.email.Some? then c.email.value else "",
         None, None, c.isStaff, None, None, None)
  }

  /** The user verifyCurrentUser saves: the server's user with
      `is_staff := is_staff || is_admin`. */
  function VerifiedUser(data: User): (u: User)
    ensures u.isStaff == if data.isStaff == Some(true) then Some(true) else data.isAdmin
    ensures u.(isStaff := data.isStaff) == data
  {
    data.(isStaff := if data.isStaff == Some(true) then Some(true) else data.isAdmin)
  }

  /** After verification the role follows the server's `is_admin` flag as
      well, and the two admin predicates differ only for a superuser that
      is neither staff, nor flagged, nor in the admin group. */
  lemma {:induction false} VerifiedRole(data: User)
    ensures RoleOf(Some(VerifiedUser(data))) == Admin <==>
      data.isStaff == Some(true) || data.isAdmin == Some(true) || InAdminGroup(data)
    ensures IsAdminUser(Some(VerifiedUser(data))) == IsAdminUser(Some(data))
    ensures IsAdminUser(Some(VerifiedUser(data))) && data.isSuperuser != Some(true) ==>
      RoleOf(Some(VerifiedUser(data))) == Admin
  {
    var u := VerifiedUser(data);
    assert InAdminGroup(u) == InAdminGroup(data) by {
      assert u.groups == data.groups;
    }
  }

  class AuthService {
    const decode: string -> Option<JwtClaims>
    var storage: Storage
    var currentUser: Option<User>
    var isAuthenticated: bool
    var userRole: UserRole
    /** The delay of the armed renewal timer; at most one is ever armed. */
    var timer: Option<int>

    /** The user and role signals mirror the stored user; a timer or an
        authenticated session needs a stored access token. */
    ghost predicate Valid()
      reads this
    {
      && currentUser == storage.user
      && userRole == RoleOf(storage.user)
      && (timer.Some? ==> storage.token.Some?)
      && (isAuthenticated ==> storage.token.Some?)
    }

    /** checkIsAdmin. */
    predicate CheckIsAdmin()
      reads this
    {
      IsAdminUser(storage.user)
    }

    /** The computed signals isAdmin and isPatient. */
    predicate IsAdmin()
      reads this
    {
      userRole == Admin
    }

    predicate IsPatient()
      reads this
    {
      userRole == Patient
    }

    /** The service as constructed: signals read from storage, then
        initAuthFromStorage. */
    constructor (decode: string -> Option<JwtClaims>, stored: Storage, now: int,
                 refreshServer: RefreshTokenRequest -> Result<AuthResponse, HttpError>)
      ensures Valid() && this.decode == decode
      ensures !Truthy(stored.token) ==> storage == stored && timer == None && !isAuthenticated
      ensures Truthy(stored.token) && decode(stored.token.value).Some?
              && decode(stored.token.value).value.exp * 1000 > now ==>
        storage == stored && isAuthenticated
        && timer == Some(RenewalDelay(decode(stored.token.value).value.exp, now))
      ensures Truthy(stored.token) && decode(stored.token.value).None? ==>
        storage == Storage(None, None, None) && !isAuthenticated && timer == None
      ensures Truthy(stored.token) && decode(stored.token.value).Some?
              && decode(stored.token.value).value.exp * 1000 <= now ==>
        if Truthy(stored.refreshToken) && refreshServer(RefreshTokenRequest(stored.refreshToken.value)).Ok?
        then
          var access := refreshServer(RefreshTokenRequest(stored.refreshToken.value)).value.access;
          && storage == stored.(token := Some(access))
          && isAuthenticated
          && timer == (if access != "" && decode(access).Some?
                       then Some(RenewalDelay(decode(access).value.exp, now))
                       else None)
        else storage == Storage(None, None, None) && !isAuthenticated && timer == None
    {
      this.decode := decode;
      storage := stored;
      currentUser := stored.user;
      isAuthenticated := Truthy(stored.token);
      userRole := RoleOf(stored.user);
      timer := None;
      new;
      InitAuthFromStorage(now, refreshServer);
    }

    /** setUpTokenExpiration: with a truthy, decodable access token the
        timer is (re-)armed for the renewal delay; otherwise nothing
        changes. */
    method SetUpTokenExpiration(now: int)
      requires Valid()
      modifies this
      ensures Valid()
      ensures storage == old(storage) && currentUser == old(currentUser)
      ensures isAuthenticated == old(isAuthenticated) && userRole == old(userRole)
      ensures timer ==
        if Truthy(storage.token) && decode(storage.token.value).Some?
        then Some(RenewalDelay(decode(storage.token.value).value.exp, now))
        else old(timer)
    {
      var token := storage.token;
      if !Truthy(token) {
        return;
      }
      match decode(token.value) {
        case Some(decoded) =>
          timer := Some(RenewalDelay(decoded.exp, now));
        case None =>
      }
    }

    /** logout: the three keys are removed, the user and role reset, and the
        timer cancelled. */
    method Logout()
      modifies this
      ensures Valid()
      ensures storage == Storage(None, None, None)
      ensures currentUser == None && !isAuthenticated && userRole == Unknown && timer == None
    {
      storage := Storage(None, None, None);
      currentUser := None;
      isAuthenticated := false;
      userRole := Unknown;
      timer := None;
    }

    /** refreshToken: without a stored refresh token it fails and nothing is
        sent; on success only the access token changes and the timer is
        re-armed; on failure the session is logged out. */
    method RefreshToken(now: int, server: RefreshTokenRequest -> Result<AuthResponse, HttpError>)
      returns (r: Result<AuthResponse, AuthFailure>)
      requires Valid()
      modifies this
      ensures Valid()
      ensures !Truthy(old(storage.refreshToken)) ==>
        r == Err(NoRefreshToken) && storage == old(storage) && timer == old(timer)
        && isAuthenticated == old(isAuthenticated)
      ensures Truthy(old(storage.refreshToken)) ==>
        var outcome := server(RefreshTokenRequest(old(storage.refreshToken).value));
        && (outcome.Ok? ==>
              r == Ok(outcome.value)
              && storage == old(storage).(token := Some(outcome.value.access))
              && isAuthenticated == old(isAuthenticated)
              && timer == (if outcome.value.access != "" && decode(outcome.value.access).Some?
                           then Some(RenewalDelay(decode(outcome.value.access).value.exp, now))
                           else old(timer)))
        && (outcome.Err? ==>
              r == Err(Rejected(outcome.error))
              && storage == Storage(None, None, None) && !isAuthenticated && timer == None)
    {
      var refreshToken := storage.refreshToken;
      if !Truthy(refreshToken) {
        return Err(NoRefreshToken);
      }
      match server(RefreshTokenRequest(refreshToken.value)) {
        case Ok(response) =>
          storage := storage.(token := Some(response.access));
          SetUpTokenExpiration(now);
          r := Ok(response);
        case Err(error) =>
          Logout();
          r := Err(Rejected(error));
      }
    }

    /** login: stores both tokens, arms the timer, and saves the user built
        from the access token's claims, whose role is then derived. A token
        that cannot be decoded leaves the tokens stored and fails. */
    method Login(credentials: AuthRequest, now: int, server: AuthRequest -> Result<AuthResponse, HttpError>)
      returns (r: Result<User, AuthFailure>)
      requires Valid()
      modifies this
      ensures Valid()
      ensures server(credentials).Err? ==>
        r == Err(Rejected(server(credentials).error)) && storage == old(storage)
        && isAuthenticated == old(isAuthenticated) && timer == old(timer)
      ensures server(credentials).Ok? ==>
        var response := server(credentials).value;
        && storage.token == Some(response.access) && storage.refreshToken == Some(response.refresh)
        && match decode(response.access)
           case None =>
             r == Err(UndecodableToken) && storage.user == old(storage.user)
             && isAuthenticated == old(isAuthenticated) && timer == old(timer)
           case Some(claims) =>
             && r == Ok(ClaimsUser(claims))
             && storage.user == Some(ClaimsUser(claims))
             && isAuthenticated
             && userRole == RoleOf(Some(ClaimsUser(claims)))
             && timer == if response.access != "" then Some(RenewalDelay(claims.exp, now)) else old(timer)
    {
      match server(credentials) {
        case Err(error) =>
          r := Err(Rejected(error));
        case Ok(response) =>
          storage := storage.(token := Some(response.access), refreshToken := Some(response.refresh));
          SetUpTokenExpiration(now);
          match decode(response.access) {
            case None =>
              r := Err(UndecodableToken);
            case Some(decoded) =>
              var user := ClaimsUser(decoded);
              storage := storage.(user := Some(user));
              currentUser := Some(user);
              isAuthenticated := true;
              userRole := RoleOf(storage.user);
              r := Ok(user);
          }
      }
    }

    /** verifyCurrentUser: saves the server's user with `is_staff := is_staff
        || is_admin` and derives the role again; a 401 logs out, any other
        error changes nothing. */
    method VerifyCurrentUser(response: Result<User, HttpError>) returns (r: Result<User, HttpError>)
      requires Valid()
      modifies this
      ensures Valid()
      ensures r == response
      ensures response.Ok? ==>
        storage == old(storage).(user := Some(VerifiedUser(response.value)))
        && userRole == RoleOf(Some(VerifiedUser(response.value)))
        && isAuthenticated == old(isAuthenticated) && timer == old(timer)
      ensures response.Err? && response.error.status == 401 ==>
        storage == Storage(None, None, None) && !isAuthenticated && timer == None
      ensures response.Err? && response.error.status != 401 ==>
        storage == old(storage) && isAuthenticated == old(isAuthenticated) && timer == old(timer)
        && userRole == old(userRole)
    {
      r := response;
      match response {
        case Ok(userData) =>
          var updatedUser := VerifiedUser(userData);
          storage := storage.(user := Some(updatedUser));
          currentUser := Some(updatedUser);
          userRole := RoleOf(storage.user);
        case Err(error) =>
          if error.status == 401 {
            Logout();
          }
      }
    }

    /** initAuthFromStorage: a stored token that cannot be decoded logs out;
        an expired one is renewed (a failed renewal logs out); a valid one
        arms the timer. Without a token nothing happens. */
    method InitAuthFromStorage(now: int, refreshServer: RefreshTokenRequest -> Result<AuthResponse, HttpError>)
      requires Valid()
      modifies this
      ensures Valid()
      ensures !Truthy(old(storage.token)) ==>
        storage == old(storage) && timer == old(timer) && isAuthenticated == old(isAuthenticated)
      ensures Truthy(old(storage.token)) && decode(old(storage.token).value).None? ==>
        storage == Storage(None, None, None) && !isAuthenticated && timer == None
      ensures Truthy(old(storage.token)) && decode(old(storage.token).value).Some?
              && decode(old(storage.token).value).value.exp * 1000 > now ==>
        storage == old(storage) && isAuthenticated == old(isAuthenticated)
        && timer == Some(RenewalDelay(decode(old(storage.token).value).value.exp, now))
      ensures Truthy(old(storage.token)) && decode(old(storage.token).value).Some?
              && decode(old(storage.token).value).value.exp * 1000 <= now ==>
        if Truthy(old(storage.refreshToken))
           && refreshServer(RefreshTokenRequest(old(storage.refreshToken).value)).Ok?
        then
          var access := refreshServer(RefreshTokenRequest(old(storage.refreshToken).value)).value.access;
          && storage == old(storage).(token := Some(access))
          && isAuthenticated == old(isAuthenticated)
          && timer == (if access != "" && decode(access).Some?
                       then Some(RenewalDelay(decode(access).value.exp, now))
                       else old(timer))
        else storage == Storage(None, None, None) && !isAuthenticated && timer == None
    {
      var token := storage.token;
      if !Truthy(token) {
        return;
      }
      match decode(token.value) {
        case None =>
          Logout();
        case Some(decoded) =>
          if decoded.exp * 1000 <= now {
            var renewed := RefreshToken(now, refreshServer);
            if renewed.Ok? {
              SetUpTokenExpiration(now);
            } else {
              Logout();
            }
          } else {
            SetUpTokenExpiration(now);
          }
      }
    }
  }
}
