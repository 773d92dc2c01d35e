/** The appointment service: the mapping between the server's German record
    and the client's `Appointment`, and the local mirror of the appointment
    list that every successful remote call updates.

    Remote calls are not performed here. A call without a request body is
    given as its outcome (`Result<..., HttpError>`); a call with an argument
    or a body is given as a function from what is sent to the outcome, so a
    contract can say what was sent. */
module AppointmentApi {
  import opened Wrappers
  import opened AppointmentModel
  import Text

  /** The server's JSON record of an appointment (`Termin`). Absent and `null`
      properties are `None`; `status` is whatever string the server sent. */
  datatype TerminRecord = TerminRecord(
    id: Option<int>,
    titel: string,
    beschreibung: Option<string>,
    datum: string,
    uhrzeit: string,
    dauerMinuten: int,
    patientName: Option<string>,
    patientEmail: Option<string>,
    patientTelefon: Option<string>,
    status: string)

  /** The body of the booking call. */
  datatype BookingBody = BookingBody(patientName: string, patientEmail: string, patientPhone: string)

  /** `x || ''` on an optional string. */
  function OrEmpty(x: Option<string>): (r: string)
    ensures x.Some? ==> r == x.value
    ensures x.None? ==> r == ""
  {
    x.GetOr("")
  }

  /** `x || null` on an optional string: the empty string is falsy. */
  function OrNull(x: Option<string>): (r: Option<string>)
    ensures r.Some? <==> x.Some? && x.value != ""
    ensures r.Some? ==> r.value == x.value
  {
    if x.Some? && x.value != "" then x else None
  }

  /** `s.substring(0, 5)`. */
  function FirstFive(s: string): (r: string)
    ensures |r| == if |s| < 5 then |s| else 5
    ensures r == s[..|r|]
  {
    if |s| <= 5 then s else s[..5]
  }

  /** convertFromBackend. */
  function ConvertFromBackend(b: TerminRecord): Appointment
  {
    Appointment(
      id := b.id,
      title := b.titel,
      description := Some(OrEmpty(b.beschreibung)),
      date := b.datum,
      startTime := FirstFive(b.uhrzeit),
      duration := b.dauerMinuten,
      patientName := Some(OrEmpty(b.patientName)),
      patientEmail := Some(OrEmpty(b.patientEmail)),
      patientPhone := Some(OrEmpty(b.patientTelefon)),
      status := if b.status == "gebucht" then Booked else Free)
  }

  /** convertToBackend; the record it builds carries no `id`. */
  function ConvertToBackend(a: Appointment): TerminRecord
  {
    TerminRecord(
      id := None,
      titel := a.title,
      beschreibung := Some(OrEmpty(a.description)),
      datum := a.date,
      uhrzeit := a.startTime,
      dauerMinuten := a.duration,
      patientName := OrNull(a.patientName),
      patientEmail := OrNull(a.patientEmail),
      patientTelefon := OrNull(a.patientPhone),
      status := if a.status == Booked then "gebucht" else "frei")
  }

  /** Ingress: the status is `Booked` exactly for "gebucht"; the start time
      keeps at most its first five characters; every missing text becomes "". */
  lemma IngressMapping(b: TerminRecord)
    ensures var a := ConvertFromBackend(b);
      && (a.status == Booked <==> b.status == "gebucht")
      && |a.startTime| == (if |b.uhrzeit| < 5 then |b.uhrzeit| else 5)
      && a.startTime == b.uhrzeit[..|a.startTime|]
      && a.description == Some(OrEmpty(b.beschreibung))
      && a.patientName == Some(OrEmpty(b.patientName))
      && a.patientEmail == Some(OrEmpty(b.patientEmail))
      && a.patientPhone == Some(OrEmpty(b.patientTelefon))
      && a.id == b.id && a.title == b.titel && a.date == b.datum && a.duration == b.dauerMinuten
  {
  }

  /** A server time `HH:MM:SS` arrives as `HH:MM`. */
  lemma IngressTruncatesSeconds(b: TerminRecord, hh: string, mm: string, ss: string)
    requires |hh| == 2 && |mm| == 2 && |ss| == 2
    requires b.uhrzeit == hh + ":" + mm + ":" + ss
    ensures ConvertFromBackend(b).startTime == hh + ":" + mm
  {
    assert b.uhrzeit[..5] == hh + ":" + mm;
  }

  /** Egress: "gebucht" exactly for `Booked`, otherwise "frei"; the start
      time goes out unchanged; empty patient fields become `null`. */
  lemma EgressMapping(a: Appointment)
    ensures var b := ConvertToBackend(a);
      && (b.status == "gebucht" <==> a.status == Booked)
      && (b.status == "frei" <==> a.status == Free)
      && b.uhrzeit == a.startTime
      && b.id.None?
      && (b.patientName.None? <==> OrEmpty(a.patientName) == "")
      && (b.patientEmail.None? <==> OrEmpty(a.patientEmail) == "")
      && (b.patientTelefon.None? <==> OrEmpty(a.patientPhone) == "")
  {
  }

  /** Sending an appointment and reading it back keeps title, date, start
      time (when it is at most `HH:MM` long), duration and status; the id is
      lost (egress omits it) and each optional text reads back as its value
      or "". */
  lemma {:induction false} RoundTrip(a: Appointment)
    ensures var r := ConvertFromBackend(ConvertToBackend(a));
      && r.title == a.title && r.date == a.date && r.duration == a.duration && r.status == a.status
      && (|a.startTime| <= 5 ==> r.startTime == a.startTime)
      && r.id.None?
      && r.description == Some(OrEmpty(a.description))
      && r.patientName == Some(OrEmpty(a.patientName))
      && r.patientEmail == Some(OrEmpty(a.patientEmail))
      && r.patientPhone == Some(OrEmpty(a.patientPhone))
  {
    var b := ConvertToBackend(a);
    assert OrEmpty(b.patientName) == OrEmpty(a.patientName);
    assert OrEmpty(b.patientEmail) == OrEmpty(a.patientEmail);
    assert OrEmpty(b.patientTelefon) == OrEmpty(a.patientPhone);
  }

  /** `data.map(convertFromBackend)`. */
  function ConvertAll(data: seq<TerminRecord>): (r: seq<Appointment>)
    ensures |r| == |data|
    ensures forall i :: 0 <= i < |data| ==> r[i] == ConvertFromBackend(data[i])
  {
    if data == [] then [] else [ConvertFromBackend(data[0])] + ConvertAll(data[1..])
  }

  /** `apps.map(app => app.id === key ? x : app)`. JavaScript's `===` on two
      absent ids is true, hence the optional key. */
  function ReplaceById(apps: seq<Appointment>, key: Option<int>, x: Appointment): (r: seq<Appointment>)
    ensures |r| == |apps|
    ensures forall i :: 0 <= i < |apps| && apps[i].id == key ==> r[i] == x
    ensures forall i :: 0 <= i < |apps| && apps[i].id != key ==> r[i] == apps[i]
  {
    if apps == [] then []
    else [if apps[0].id == key then x else apps[0]] + ReplaceById(apps[1..], key, x)
  }

  /** When no element carries the key, replacing changes nothing. */
  lemma {:induction false} ReplaceAbsentKey(apps: seq<Appointment>, key: Option<int>, x: Appointment)
    requires forall i :: 0 <= i < |apps| ==> apps[i].id != key
    ensures ReplaceById(apps, key, x) == apps
  {
    var r := ReplaceById(apps, key, x);
    assert forall i :: 0 <= i < |apps| ==> r[i] == apps[i];
  }

  /** `apps.filter(app => app.id !== id)`. */
  function RemoveById(apps: seq<Appointment>, id: int): seq<Appointment>
  {
    if apps == [] then []
    else (if apps[0].id == Some(id) then [] else [apps[0]]) + RemoveById(apps[1..], id)
  }

  /** Removing leaves no record with the id and keeps every other record,
      as often as it occurred. */
  lemma {:induction false} RemoveByIdContents(apps: seq<Appointment>, id: int)
    ensures var r := RemoveById(apps, id);
      && (forall i :: 0 <= i < |r| ==> r[i].id != Some(id))
      && (forall a :: multiset(r)[a] == if a.id == Some(id) then 0 else multiset(apps)[a])
  {
    if apps != [] {
      assert apps == [apps[0]] + apps[1..];
      RemoveByIdContents(apps[1..], id);
    }
  }

  /** Removing keeps the order: it distributes over concatenation. */
  lemma {:induction false} RemoveKeepsOrder(front: seq<Appointment>, back: seq<Appointment>, id: int)
    ensures RemoveById(front + back, id) == RemoveById(front, id) + RemoveById(back, id)
  {
    if front == [] {
      assert front + back == back;
    } else {
      var head := if front[0].id == Some(id) then [] else [front[0]];
      assert (front + back)[0] == front[0];
      assert (front + back)[1..] == front[1..] + back;
      assert RemoveById(front + back, id) == head + RemoveById(front[1..] + back, id);
      RemoveKeepsOrder(front[1..], back, id);
      assert RemoveById(front, id) == head + RemoveById(front[1..], id);
    }
  }

  /** The service, holding the `appointments` mirror. */
  class AppointmentService {
    var appointments: seq<Appointment>

    constructor ()
      ensures appointments == []
    {
      appointments := [];
    }

    /** getAppointments: on success the mirror becomes the converted list. */
    method GetAppointments(response: Result<seq<TerminRecord>, HttpError>)
      returns (r: Result<seq<Appointment>, HttpError>)
      modifies this
      ensures response.Ok? ==> r == Ok(ConvertAll(response.value)) && appointments == r.value
      ensures response.Err? ==> r == Err(response.error) && appointments == old(appointments)
    {
      match response {
        case Ok(data) =>
          var converted := ConvertAll(data);
          appointments := converted;
          r := Ok(converted);
        case Err(e) =>
          r := Err(e);
      }
    }

    /** getAppointment: one converted record; the mirror is not touched. */
    method GetAppointment(id: int, server: int -> Result<TerminRecord, HttpError>)
      returns (r: Result<Appointment, HttpError>)
      ensures server(id).Ok? ==> r == Ok(ConvertFromBackend(server(id).value))
      ensures server(id).Err? ==> r == Err(server(id).error)
    {
      match server(id) {
        case Ok(rec) => r := Ok(ConvertFromBackend(rec));
        case Err(e) => r := Err(e);
      }
    }

    /** getFreeAppointments: the converted list; the mirror is not touched. */
    method GetFreeAppointments(response: Result<seq<TerminRecord>, HttpError>)
      returns (r: Result<seq<Appointment>, HttpError>)
      ensures response.Ok? ==> r.Ok? && |r.value| == |response.value|
      ensures response.Ok? ==> forall i :: 0 <= i < |r.value| ==> r.value[i] == ConvertFromBackend(response.value[i])
      ensures response.Err? ==> r == Err(response.error)
    {
      match response {
        case Ok(data) => r := Ok(ConvertAll(data));
        case Err(e) => r := Err(e);
      }
    }

    /** getUserAppointments: the server is asked for the given email; the
        mirror is not touched. */
    method GetUserAppointments(email: string, server: string -> Result<seq<TerminRecord>, HttpError>)
      returns (r: Result<seq<Appointment>, HttpError>)
      ensures server(email).Ok? ==> r == Ok(ConvertAll(server(email).value))
      ensures server(email).Err? ==> r == Err(server(email).error)
    {
      match server(email) {
        case Ok(data) => r := Ok(ConvertAll(data));
        case Err(e) => r := Err(e);
      }
    }

    /** createAppointment: sends the converted record and appends what the
        server returns. */
    method CreateAppointment(a: Appointment, post: TerminRecord -> Result<TerminRecord, HttpError>)
      returns (r: Result<Appointment, HttpError>)
      modifies this
      ensures post(ConvertToBackend(a)).Ok? ==>
        r == Ok(ConvertFromBackend(post(ConvertToBackend(a)).value))
        && appointments == old(appointments) + [r.value]
      ensures post(ConvertToBackend(a)).Err? ==>
        r == Err(post(ConvertToBackend(a)).error) && appointments == old(appointments)
    {
      match post(ConvertToBackend(a)) {
        case Ok(rec) =>
          var created := ConvertFromBackend(rec);
          appointments := appointments + [created];
          r := Ok(created);
        case Err(e) =>
          r := Err(e);
      }
    }

    /** bookAppointment: posts the three patient fields for the requested id
        and replaces the mirror's records carrying the id of the RETURNED
        record. */
    method BookAppointment(request: AppointmentBookingRequest,
                           post: (int, BookingBody) -> Result<TerminRecord, HttpError>)
      returns (r: Result<Appointment, HttpError>)
      modifies this
      ensures var outcome := post(request.appointmentId,
          BookingBody(request.patientName, request.patientEmail, request.patientPhone));
        && (outcome.Ok? ==>
              r == Ok(ConvertFromBackend(outcome.value))
              && appointments == ReplaceById(old(appointments), r.value.id, r.value))
        && (outcome.Err? ==> r == Err(outcome.error) && appointments == old(appointments))
    {
      var body := BookingBody(request.patientName, request.patientEmail, request.patientPhone);
      match post(request.appointmentId, body) {
        case Ok(rec) =>
          var booked := ConvertFromBackend(rec);
          appointments := ReplaceById(appointments, booked.id, booked);
          r := Ok(booked);
        case Err(e) =>
          r := Err(e);
      }
    }

    /** updateAppointment: puts the converted record and replaces the
        mirror's records carrying the ARGUMENT id. */
    method UpdateAppointment(id: int, a: Appointment,
                             put: (int, TerminRecord) -> Result<TerminRecord, HttpError>)
      returns (r: Result<Appointment, HttpError>)
      modifies this
      ensures put(id, ConvertToBackend(a)).Ok? ==>
        r == Ok(ConvertFromBackend(put(id, ConvertToBackend(a)).value))
        && appointments == ReplaceById(old(appointments), Some(id), r.value)
      ensures put(id, ConvertToBackend(a)).Err? ==>
        r == Err(put(id, ConvertToBackend(a)).error) && appointments == old(appointments)
    {
      match put(id, ConvertToBackend(a)) {
        case Ok(rec) =>
          var updated := ConvertFromBackend(rec);
          appointments := ReplaceById(appointments, Some(id), updated);
          r := Ok(updated);
        case Err(e) =>
          r := Err(e);
      }
    }

    /** deleteAppointment: on success no record with the id is left. */
    method DeleteAppointment(id: int, delete: int -> Result<(), HttpError>)
      returns (r: Result<(), HttpError>)
      modifies this
      ensures r == delete(id)
      ensures r.Ok? ==> appointments == RemoveById(old(appointments), id)
      ensures r.Err? ==> appointments == old(appointments)
    {
      r := delete(id);
      if r.Ok? {
        appointments := RemoveById(appointments, id);
      }
    }
  }
}
