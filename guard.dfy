/** The route guard: a decision, from the stored access token, the role the
    route requires (its `requiredRole` data, any string or none) and the
    saved user, to let the navigation through or to refuse it and redirect. */
module RouteGuard {
  import opened Wrappers
  import opened AuthModel
  import opened Session

  datatype Decision = Allow | Deny(redirect: string)

  /** authGuard. Admin-ness is checkIsAdmin over the saved user. */
  function AuthGuard(token: Option<string>, requiredRole: Option<string>, savedUser: Option<User>): (d: Decision)
    ensures !Truthy(token) ==> d == Deny("/login")
    ensures Truthy(token) && !Truthy(requiredRole) ==> d == Allow
    ensures Truthy(token) && requiredRole == Some(RoleName(Admin)) ==>
      (d == Allow <==> IsAdminUser(savedUser))
    ensures Truthy(token) && requiredRole == Some(RoleName(Patient)) ==>
      (d == Allow <==> !IsAdminUser(savedUser))
    ensures Truthy(token) && Truthy(requiredRole)
            && requiredRole.value != RoleName(Admin) && requiredRole.value != RoleName(Patient) ==>
      d.Deny?
    ensures Truthy(token) && d.Deny? ==>
      d.redirect == if IsAdminUser(savedUser) then "/calendar" else "/free-appointments"
  {
    if !Truthy(token) then Deny("/login")
    else if !Truthy(requiredRole) then Allow
    else
      var hasRequiredRole :=
        if requiredRole.value == RoleName(Admin) then IsAdminUser(savedUser)
        else if requiredRole.value == RoleName(Patient) then !IsAdminUser(savedUser)
        else false;
      if !hasRequiredRole then
        (if IsAdminUser(savedUser) then Deny("/calendar") else Deny("/free-appointments"))
      else Allow
  }

  /** With a token, every user gets exactly one of the two role-restricted
      areas, and is sent to the area that is theirs when refused the other. */
  lemma {:induction false} RoleAreasPartitionUsers(token: Option<string>, savedUser: Option<User>)
    requires Truthy(token)
    ensures var admin, patient := AuthGuard(token, Some("admin"), savedUser), AuthGuard(token, Some("patient"), savedUser);
      && (admin == Allow <==> patient != Allow)
      && (admin.Deny? ==> admin.redirect == "/free-appointments")
      && (patient.Deny? ==> patient.redirect == "/calendar")
  {
    assert RoleName(Admin) == "admin" && RoleName(Patient) == "patient";
  }

  /** The guard reads the session through checkIsAdmin, so a superuser that
      is not staff is let into the admin area although its role is Patient. */
  lemma SuperuserEntersAdminArea(token: Option<string>, u: User)
    requires Truthy(token)
    requires u.isSuperuser == Some(true) && u.isStaff == None && u.groups == None
    ensures AuthGuard(token, Some("admin"), Some(u)) == Allow
    ensures RoleOf(Some(u)) == Patient
  {
    assert RoleName(Admin) == "admin";
  }
}
