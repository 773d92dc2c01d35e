/** The server's permission classes over the requesting user. A request
    without valid credentials carries the anonymous user, which has no
    email attribute: reading it is a server error. */
module Permissions {
  import opened Wrappers
  import opened TerminModel

  /** The requesting user as the server sees it. */
  datatype RequestUser =
    | Anonymous
    | Account(id: int, username: string, email: string, firstName: string, lastName: string,
              isStaff: bool, isSuperuser: bool, groups: seq<string>)

  /** A request the server could not answer: an unhandled exception. */
  const ServerError := 500

  /** Membership in the group named `admin`; the anonymous user is in no
      group. */
  predicate InAdminGroup(u: RequestUser)
  {
    u.Account? && "admin" in u.groups
  }

  /** IsAdmin.has_permission */
  predicate IsAdmin(u: RequestUser)
  {
    u.Account? && (u.isStaff || InAdminGroup(u))
  }

  /** IsPatient.has_permission */
  predicate IsPatient(u: RequestUser)
  {
    u.Account? && !u.isStaff && !InAdminGroup(u)
  }

  /** A logged-in user is exactly one of administrator and patient; the
      anonymous user is neither. */
  lemma PatientIsNotAdmin(u: RequestUser)
    ensures u.Account? ==> (IsPatient(u) <==> !IsAdmin(u))
    ensures u.Anonymous? ==> !IsPatient(u) && !IsAdmin(u)
  {
  }

  /** The superuser flag grants nothing by itself. */
  lemma SuperuserAloneIsNotAdmin(u: RequestUser)
    requires u.Account? && u.isSuperuser && !u.isStaff && "admin" !in u.groups
    ensures !IsAdmin(u) && IsPatient(u)
  {
  }

  /** IsOwnerOrAdmin.has_object_permission: staff or admin group, or the
      slot's patient email is the user's email. The anonymous user's missing
      email makes the check fail with a server error. */
  function IsOwnerOrAdmin(u: RequestUser, t: Termin): (r: Result<bool, int>)
    ensures r.Err? <==> u.Anonymous?
    ensures r.Err? ==> r.error == ServerError
    ensures r.Ok? ==> (r.value <==> IsAdmin(u) || t.patientEmail == Some(u.email))
  {
    match u
    case Anonymous => Err(ServerError)
    case Account(_, _, email, _, _, isStaff, _, groups) =>
      var isAdmin := isStaff || "admin" in groups;
      var isOwner := t.patientEmail == Some(email);
      Ok(isAdmin || isOwner)
  }

  /** Owning a slot never depends on the administrator flags: a patient
      who owns a slot passes, and one who does not is refused. */
  lemma PatientPassesOnlyForOwnSlot(u: RequestUser, t: Termin)
    requires IsPatient(u)
    ensures IsOwnerOrAdmin(u, t) == Ok(t.patientEmail == Some(u.email))
  {
  }
}
