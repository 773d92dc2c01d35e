/** The server's view set over the `Termin` table: which permission class
    guards each action, the list queries, booking a slot, creating a slot,
    and the current-user endpoint. Each request is answered with the record
    (or records) on success and with its HTTP status code on failure. */
module TerminViews {
  import opened Wrappers
  import opened TerminModel
  import opened Permissions
  import AuthModel
  import Session

  const BadRequest := 400
  const NotAuthenticated := 401
  const Forbidden := 403
  const NotFound := 404

  datatype PermissionClass = IsAdminClass | IsAuthenticatedClass | IsOwnerOrAdminClass

  /** get_permissions */
  function GetPermissions(action: string): (classes: seq<PermissionClass>)
    ensures |classes| == 1
    ensures classes[0] == IsAdminClass <==> action in ["create", "update", "partial_update", "destroy"]
    ensures classes[0] == IsOwnerOrAdminClass <==> action == "retrieve"
  {
    if action in ["create", "update", "partial_update", "destroy"] then [IsAdminClass]
    else if action == "list" then [IsAuthenticatedClass]
    else if action in ["verfuegbar", "benutzer"] then [IsAuthenticatedClass]
    else if action == "buchen" then [IsAuthenticatedClass]
    else if action == "retrieve" then [IsOwnerOrAdminClass]
    else [IsAuthenticatedClass]
  }

  /** has_permission of each class; IsOwnerOrAdmin keeps the default, which
      lets every request through to the object check. */
  predicate HasPermission(p: PermissionClass, u: RequestUser)
  {
    match p
    case IsAdminClass => IsAdmin(u)
    case IsAuthenticatedClass => u.Account?
    case IsOwnerOrAdminClass => true
  }

  /** The refusal of a request: 401 without credentials, 403 with. */
  function Denied(u: RequestUser): (status: int)
    ensures status == NotAuthenticated <==> u.Anonymous?
    ensures status == Forbidden <==> u.Account?
  {
    if u.Anonymous? then NotAuthenticated else Forbidden
  }

  /** check_permissions: `None` lets the request through. */
  function CheckPermissions(action: string, u: RequestUser): (refusal: Option<int>)
    ensures refusal.None? <==> forall p :: p in GetPermissions(action) ==> HasPermission(p, u)
    ensures refusal.Some? ==> refusal.value == Denied(u)
  {
    var classes := GetPermissions(action);
    if HasPermission(classes[0], u) then None else Some(Denied(u))
  }

  /** Writes are for administrators only, `retrieve` is decided on the
      object alone, and every other action needs a logged-in user. */
  lemma {:induction false} AccessByAction(action: string, u: RequestUser)
    ensures action in ["create", "update", "partial_update", "destroy"] ==>
      (CheckPermissions(action, u).None? <==> IsAdmin(u))
    ensures action == "retrieve" ==> CheckPermissions(action, u).None?
    ensures action !in ["create", "update", "partial_update", "destroy", "retrieve"] ==>
      (CheckPermissions(action, u).None? <==> u.Account?)
  {
    var classes := GetPermissions(action);
    assert classes == [classes[0]];
    assert forall p :: p in classes ==> p == classes[0];
  }

  /** A patient may not create, change or delete a slot. */
  lemma PatientsCannotWrite(action: string, u: RequestUser)
    requires IsPatient(u)
    requires action in ["create", "update", "partial_update", "destroy"]
    ensures CheckPermissions(action, u) == Some(Forbidden)
  {
    AccessByAction(action, u);
  }

  /** The rows of `rows` that `keep` accepts, in table order. */
  function Where(rows: seq<Termin>, keep: Termin -> bool): (r: seq<Termin>)
    ensures |r| <= |rows|
    ensures forall t :: t in r <==> t in rows && keep(t)
  {
    if rows == [] then []
    else
      assert rows == [rows[0]] + rows[1..];
      (if keep(rows[0]) then [rows[0]] else []) + Where(rows[1..], keep)
  }

  /** The `datum` and `status` query filters; an absent one matches all. */
  predicate MatchesFilters(t: Termin, datum: Option<Date>, status: Option<TerminStatus>)
  {
    (datum.None? || t.datum == datum.value) && (status.None? || t.status == status.value)
  }

  function FilterQueryset(rows: seq<Termin>, datum: Option<Date>, status: Option<TerminStatus>): seq<Termin>
  {
    Where(rows, (t: Termin) => MatchesFilters(t, datum, status))
  }

  /** The position of the row with primary key `pk`. */
  function IndexOfId(rows: seq<Termin>, pk: int): (i: Option<nat>)
    ensures i.Some? ==> i.value < |rows| && rows[i.value].id == pk
    ensures i.None? ==> forall t :: t in rows ==> t.id != pk
  {
    if rows == [] then None
    else if rows[0].id == pk then Some(0)
    else
      var rest := IndexOfId(rows[1..], pk);
      assert forall t :: t in rows ==> t == rows[0] || t in rows[1..];
      if rest.Some? then Some(rest.value + 1) else None
  }

  /** The lookup sees only the keys. */
  lemma {:induction false} SameKeysSameIndex(rows: seq<Termin>, other: seq<Termin>, pk: int)
    requires |other| == |rows|
    requires forall k :: 0 <= k < |rows| ==> other[k].id == rows[k].id
    ensures IndexOfId(other, pk) == IndexOfId(rows, pk)
    decreases |rows|
  {
    if rows != [] && rows[0].id != pk {
      SameKeysSameIndex(rows[1..], other[1..], pk);
    }
  }

  predicate UniqueIds(rows: seq<Termin>)
  {
    forall i, j :: 0 <= i < j < |rows| ==> rows[i].id != rows[j].id
  }

  /** What a state-changing request answers, and the table afterwards. */
  datatype Outcome = Outcome(response: Result<Termin, int>, rows: seq<Termin>)

  /** The row as `buchen` saves it: the name and telephone from the body,
      the requester's own email, and status `gebucht`. */
  function Booked(t: Termin, email: string, patientName: Option<string>, patientPhone: Option<string>): (b: Termin)
    ensures b.status == Gebucht && b.patientEmail == Some(email)
    ensures b.patientName == patientName && b.patientTelefon == patientPhone
    ensures b.(patientName := t.patientName, patientEmail := t.patientEmail,
               patientTelefon := t.patientTelefon, status := t.status) == t
  {
    t.(patientName := patientName, patientEmail := Some(email), patientTelefon := patientPhone, status := Gebucht)
  }

  /** `buchen` on the table `rows`: 401 without credentials, 404 for an
      unknown key, 400 for a slot that is not free (nothing changes); else
      that one row is booked. */
  function Book(rows: seq<Termin>, u: RequestUser, pk: int,
                patientName: Option<string>, patientPhone: Option<string>): (o: Outcome)
    ensures o.response.Err? ==> o.rows == rows
    ensures o.response == Err(NotAuthenticated) <==> u.Anonymous?
    ensures o.response == Err(NotFound) <==> u.Account? && IndexOfId(rows, pk).None?
    ensures o.response == Err(BadRequest) <==>
      u.Account? && IndexOfId(rows, pk).Some? && rows[IndexOfId(rows, pk).value].status != Frei
    ensures o.response.Ok? ==>
      && u.Account? && IndexOfId(rows, pk).Some?
      && var i := IndexOfId(rows, pk).value;
      && rows[i].status == Frei
      && o.response.value == Booked(rows[i], u.email, patientName, patientPhone)
      && o.rows == rows[i := o.response.value]
    ensures u.Account? && IndexOfId(rows, pk).Some? && rows[IndexOfId(rows, pk).value].status == Frei ==>
      o.response.Ok?
  {
    if CheckPermissions("buchen", u).Some? then Outcome(Err(Denied(u)), rows)
    else match IndexOfId(rows, pk)
      case None => Outcome(Err(NotFound), rows)
      case Some(i) =>
        if rows[i].status != Frei then Outcome(Err(BadRequest), rows)
        else
          var t := Booked(rows[i], u.email, patientName, patientPhone);
          Outcome(Ok(t), rows[i := t])
  }

  /** Booking changes no slot, no key and no other row, so it keeps both
      uniqueness invariants. */
  lemma {:induction false} BookingKeepsTable(rows: seq<Termin>, u: RequestUser, pk: int,
                                            patientName: Option<string>, patientPhone: Option<string>)
    ensures var o := Book(rows, u, pk, patientName, patientPhone);
      && |o.rows| == |rows|
      && (forall k :: 0 <= k < |rows| ==> Slot(o.rows[k]) == Slot(rows[k]) && o.rows[k].id == rows[k].id)
      && (UniqueSlots(rows) ==> UniqueSlots(o.rows))
      && (UniqueIds(rows) ==> UniqueIds(o.rows))
  {
    var o := Book(rows, u, pk, patientName, patientPhone);
    if o.response.Ok? {
      var i := IndexOfId(rows, pk).value;
      assert forall k :: 0 <= k < |rows| ==> Slot(o.rows[k]) == Slot(rows[k]) && o.rows[k].id == rows[k].id;
    }
  }

  /** A slot once booked cannot be booked again, by anyone: the second
      request gets 400 and the table stays as the first booking left it. */
  lemma {:induction false} NoDoubleBooking(rows: seq<Termin>, u: RequestUser, v: RequestUser, pk: int,
                                          n1: Option<string>, p1: Option<string>,
                                          n2: Option<string>, p2: Option<string>)
    requires Book(rows, u, pk, n1, p1).response.Ok?
    requires v.Account?
    ensures var first := Book(rows, u, pk, n1, p1);
      Book(first.rows, v, pk, n2, p2) == Outcome(Err(BadRequest), first.rows)
  {
    var first := Book(rows, u, pk, n1, p1);
    BookingKeepsTable(rows, u, pk, n1, p1);
    SameKeysSameIndex(rows, first.rows, pk);
  }

  /** The fields a create request supplies; absent defaulted fields are
      `None`. */
  datatype TerminInput = TerminInput(
    titel: string,
    beschreibung: Option<string>,
    datum: Date,
    uhrzeit: Time,
    dauerMinuten: Option<int>,
    patientName: Option<string>,
    patientEmail: Option<string>,
    patientTelefon: Option<string>,
    status: Option<TerminStatus>)

  /** The row saved for an input under key `id`, defaults filled in. */
  function Saved(id: int, input: TerminInput): (t: Termin)
    ensures t.dauerMinuten == input.dauerMinuten.GetOr(DefaultDauerMinuten)
    ensures t.status == input.status.GetOr(DefaultStatus)
    ensures Slot(t) == (input.datum, input.uhrzeit) && t.id == id
  {
    Termin(id, input.titel, input.beschreibung, input.datum, input.uhrzeit,
           input.dauerMinuten.GetOr(DefaultDauerMinuten), input.patientName, input.patientEmail,
           input.patientTelefon, input.status.GetOr(DefaultStatus))
  }

  /** Whether some row already occupies the slot. */
  predicate SlotTaken(rows: seq<Termin>, datum: Date, uhrzeit: Time)
  {
    exists t :: t in rows && Slot(t) == (datum, uhrzeit)
  }

  /** `create` followed by perform_create: 401 or 403 for a non-admin, 400
      for an occupied slot, else the new row appended under the next key. */
  function Create(rows: seq<Termin>, nextId: int, u: RequestUser, input: TerminInput): (o: Outcome)
    ensures o.response.Err? ==> o.rows == rows
    ensures !IsAdmin(u) ==> o.response == Err(Denied(u))
    ensures IsAdmin(u) && SlotTaken(rows, input.datum, input.uhrzeit) ==> o.response == Err(BadRequest)
    ensures IsAdmin(u) && !SlotTaken(rows, input.datum, input.uhrzeit) ==>
      o.response == Ok(Saved(nextId, input)) && o.rows == rows + [Saved(nextId, input)]
  {
    AccessByAction("create", u);
    if CheckPermissions("create", u).Some? then Outcome(Err(Denied(u)), rows)
    else if SlotTaken(rows, input.datum, input.uhrzeit) then Outcome(Err(BadRequest), rows)
    else
      var t := Saved(nextId, input);
      Outcome(Ok(t), rows + [t])
  }

  /** Creating keeps every slot unique; with a key above all present ones,
      keys stay unique too. */
  lemma {:induction false} CreateKeepsTable(rows: seq<Termin>, nextId: int, u: RequestUser, input: TerminInput)
    requires UniqueSlots(rows) && UniqueIds(rows)
    requires forall t :: t in rows ==> t.id < nextId
    ensures var o := Create(rows, nextId, u, input);
      UniqueSlots(o.rows) && UniqueIds(o.rows)
  {
    var o := Create(rows, nextId, u, input);
    if o.response.Ok? {
      var t := Saved(nextId, input);
      assert o.rows == rows + [t];
      forall i, j | 0 <= i < j < |o.rows|
        ensures Slot(o.rows[i]) != Slot(o.rows[j]) && o.rows[i].id != o.rows[j].id
      {
        if j == |rows| {
          assert o.rows[i] == rows[i] && rows[i] in rows;
        }
      }
    }
  }

  /** The user record current_user_info answers for a logged-in user. */
  function CurrentUserInfo(u: RequestUser): (r: Result<AuthModel.User, int>)
    ensures r.Err? <==> u.Anonymous?
    ensures r.Err? ==> r.error == NotAuthenticated
    ensures r.Ok? ==>
      && r.value.isAdmin == Some(IsAdmin(u))
      && r.value.id == Some(u.id) && r.value.username == u.username && r.value.email == u.email
      && r.value.firstName == Some(u.firstName) && r.value.lastName == Some(u.lastName)
      && r.value.isStaff == Some(u.isStaff) && r.value.isSuperuser == Some(u.isSuperuser)
      && r.value.groups == Some(u.groups)
  {
    match u
    case Anonymous => Err(NotAuthenticated)
    case Account(id, username, email, firstName, lastName, isStaff, isSuperuser, groups) =>
      Ok(AuthModel.User(Some(id), username, email, Some(firstName), Some(lastName),
                        Some(isStaff), Some(isSuperuser), Some(isStaff || "admin" in groups), Some(groups)))
  }

  /** Once the client has verified the session against current_user_info,
      its role is `admin` exactly when the server's IsAdmin holds. */
  lemma {:induction false} ClientRoleFollowsServer(u: RequestUser)
    requires u.Account?
    ensures var info := CurrentUserInfo(u).value;
      Session.RoleOf(Some(Session.VerifiedUser(info))) == AuthModel.Admin <==> IsAdmin(u)
  {
    var info := CurrentUserInfo(u).value;
    Session.VerifiedRole(info);
    assert Session.InAdminGroup(info) <==> InAdminGroup(u);
  }

  /** A superuser who is neither staff nor in the admin group passes the
      client's checkIsAdmin, keeps the patient role, and is refused every
      write by the server. */
  lemma {:induction false} SuperuserIsAdminOnlyToTheClient(u: RequestUser, action: string)
    requires u.Account? && u.isSuperuser && !u.isStaff && "admin" !in u.groups
    requires action in ["create", "update", "partial_update", "destroy"]
    ensures var info := CurrentUserInfo(u).value;
      && Session.IsAdminUser(Some(Session.VerifiedUser(info)))
      && Session.RoleOf(Some(Session.VerifiedUser(info))) == AuthModel.Patient
      && CheckPermissions(action, u) == Some(Forbidden)
  {
    var info := CurrentUserInfo(u).value;
    ClientRoleFollowsServer(u);
    AccessByAction(action, u);
    assert Session.VerifiedUser(info).isSuperuser == Some(true);
  }

  /** The view set over the table. Keys are positive, unique and below
      `nextId`, the next key the database hands out; slots are unique. */
  class TerminViewSet {
    var rows: seq<Termin>
    var nextId: int

    ghost predicate Valid()
      reads this
    {
      nextId >= 1 && UniqueSlots(rows) && UniqueIds(rows) && forall t :: t in rows ==> 1 <= t.id < nextId
    }

    constructor ()
      ensures Valid() && rows == [] && nextId == 1
    {
      rows := [];
      nextId := 1;
    }

    /** list: an administrator sees every row, anyone else the rows booked
        under their own email; both pass through the query filters. */
    function List(u: RequestUser, datum: Option<Date>, status: Option<TerminStatus>): (r: Result<seq<Termin>, int>)
      reads this
      ensures r.Err? <==> u.Anonymous?
      ensures r.Err? ==> r.error == NotAuthenticated
      ensures r.Ok? ==> forall t :: t in r.value <==>
        t in rows && (IsAdmin(u) || t.patientEmail == Some(u.email)) && MatchesFilters(t, datum, status)
    {
      if CheckPermissions("list", u).Some? then Err(Denied(u))
      else if IsAdmin(u) then Ok(FilterQueryset(rows, datum, status))
      else
        var email := u.email;
        Ok(FilterQueryset(Where(rows, (t: Termin) => t.patientEmail == Some(email)), datum, status))
    }

    /** verfuegbar: exactly the free rows. */
    function Verfuegbar(u: RequestUser): (r: Result<seq<Termin>, int>)
      reads this
      ensures r.Err? <==> u.Anonymous?
      ensures r.Err? ==> r.error == NotAuthenticated
      ensures r.Ok? ==> forall t :: t in r.value <==> t in rows && t.status == Frei
    {
      if CheckPermissions("verfuegbar", u).Some? then Err(Denied(u))
      else Ok(Where(rows, (t: Termin) => t.status == Frei))
    }

    /** benutzer/<email>: 403 unless the requester is an administrator or
        asks for their own email; then exactly the rows booked under it. */
    function Benutzer(u: RequestUser, email: string): (r: Result<seq<Termin>, int>)
      reads this
      ensures r == Err(NotAuthenticated) <==> u.Anonymous?
      ensures r == Err(Forbidden) <==> u.Account? && !IsAdmin(u) && u.email != email
      ensures u.Account? && (IsAdmin(u) || u.email == email) ==> r.Ok?
      ensures r.Ok? ==> forall t :: t in r.value <==> t in rows && t.patientEmail == Some(email)
    {
      if CheckPermissions("benutzer", u).Some? then Err(Denied(u))
      else if !(IsAdmin(u) || u.email == email) then Err(Forbidden)
      else Ok(Where(rows, (t: Termin) => t.patientEmail == Some(email)))
    }

    /** retrieve: 404 for an unknown key, then the owner-or-admin check on
        the row: 403 when it fails, a server error for the anonymous user. */
    function Retrieve(u: RequestUser, pk: int): (r: Result<Termin, int>)
      reads this
      ensures IndexOfId(rows, pk).None? <==> r == Err(NotFound)
      ensures IndexOfId(rows, pk).Some? && u.Anonymous? ==> r == Err(ServerError)
      ensures r.Ok? <==> u.Account? && IndexOfId(rows, pk).Some?
                         && (IsAdmin(u) || rows[IndexOfId(rows, pk).value].patientEmail == Some(u.email))
      ensures u.Account? && IndexOfId(rows, pk).Some? && !r.Ok? ==> r == Err(Forbidden)
      ensures r.Ok? ==> r.value in rows && r.value.id == pk
    {
      AccessByAction("retrieve", u);
      match IndexOfId(rows, pk)
      case None => Err(NotFound)
      case Some(i) =>
        match IsOwnerOrAdmin(u, rows[i])
        case Err(e) => Err(e)
        case Ok(allowed) => if allowed then Ok(rows[i]) else Err(Denied(u))
    }

    /** buchen */
    method Buchen(u: RequestUser, pk: int, patientName: Option<string>, patientPhone: Option<string>)
      returns (r: Result<Termin, int>)
      requires Valid()
      modifies this
      ensures Valid() && nextId == old(nextId)
      ensures var o := Book(old(rows), u, pk, patientName, patientPhone);
        r == o.response && rows == o.rows
    {
      var o := Book(rows, u, pk, patientName, patientPhone);
      BookingKeepsTable(rows, u, pk, patientName, patientPhone);
      if o.response.Ok? {
        var i := IndexOfId(rows, pk).value;
        assert forall t :: t in o.rows ==> t == o.rows[i] || t in rows by {
          forall t | t in o.rows ensures t == o.rows[i] || t in rows {
            var k :| 0 <= k < |o.rows| && o.rows[k] == t;
            if k != i { assert rows[k] == t; }
          }
        }
      }
      r := o.response;
      rows := o.rows;
    }

    /** create and perform_create */
    method CreateTermin(u: RequestUser, input: TerminInput) returns (r: Result<Termin, int>)
      requires Valid()
      modifies this
      ensures Valid()
      ensures var o := Create(old(rows), old(nextId), u, input);
        r == o.response && rows == o.rows
      ensures nextId == if r.Ok? then old(nextId) + 1 else old(nextId)
    {
      var o := Create(rows, nextId, u, input);
      CreateKeepsTable(rows, nextId, u, input);
      if o.response.Ok? {
        assert forall t :: t in o.rows ==> t in rows || t == o.response.value;
      }
      r := o.response;
      rows := o.rows;
      if r.Ok? {
        nextId := nextId + 1;
      }
    }
  }
}
