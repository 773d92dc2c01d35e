/** The booking form a patient fills in for a chosen appointment: its three
    validated fields, the prefill from the logged-in user, and the submit
    that emits a booking request. */
module BookingForm {
  import opened Wrappers
  import opened Text
  import opened AppointmentModel
  import opened AuthModel

  /** `patient_name`: required, at least three UTF-16 code units long. */
  predicate NameValid(name: string)
  {
    name != "" && Utf16Length(name) >= 3
  }

  /** The minimum length counts code units, not characters: two characters
      of which one lies above U+FFFF are long enough, two below it are not. */
  lemma AstralNameAccepted()
    ensures |"\U{1D49C}b"| == 2 && NameValid("\U{1D49C}b")
    ensures !NameValid("ab")
  {
    assert "\U{1D49C}b"[1..] == "b";
  }

  predicate IsLower(c: char) { 'a' <= c <= 'z' }

  predicate IsUpper(c: char) { 'A' <= c <= 'Z' }

  /** `[a-z0-9._%+-]` */
  predicate LocalChar(c: char)
  {
    IsLower(c) || IsDigit(c) || c == '.' || c == '_' || c == '%' || c == '+' || c == '-'
  }

  /** `[a-z0-9.-]` */
  predicate DomainChar(c: char)
  {
    IsLower(c) || IsDigit(c) || c == '.' || c == '-'
  }

  predicate AllLocal(s: string) { forall k :: 0 <= k < |s| ==> LocalChar(s[k]) }

  predicate AllDomain(s: string) { forall k :: 0 <= k < |s| ==> DomainChar(s[k]) }

  predicate AllLower(s: string) { forall k :: 0 <= k < |s| ==> IsLower(s[k]) }

  /** `s` matches `^[a-z0-9._%+-]+@[a-z0-9.-]+\.[a-z]{2,4}$` with the `@` at
      `at` and the last dot at `dot`. */
  predicate EmailSplit(s: string, at: int, dot: int)
  {
    && 0 < at && at + 1 < dot && dot + 3 <= |s| <= dot + 5
    && AllLocal(s[..at]) && s[at] == '@'
    && AllDomain(s[at + 1..dot]) && s[dot] == '.'
    && AllLower(s[dot + 1..])
  }

  /** The pattern, stated as the regular expression reads. */
  ghost predicate EmailPattern(s: string)
  {
    exists at, dot :: EmailSplit(s, at, dot)
  }

  /** The first position of `c` in `s`. */
  function IndexOf(s: string, c: char): (r: Option<nat>)
    ensures r.Some? ==> r.value < |s| && s[r.value] == c && c !in s[..r.value]
    ensures r.None? ==> c !in s
  {
    if s == [] then None
    else if s[0] == c then Some(0)
    else
      var rest := IndexOf(s[1..], c);
      assert s == [s[0]] + s[1..];
      if rest.Some? then
        assert s[..rest.value + 1] == [s[0]] + s[1..][..rest.value];
        Some(rest.value + 1)
      else None
  }

  /** The pattern with a top-level domain of `k` letters, checked by
      locating the only possible `@`. */
  predicate MatchesWithTld(s: string, k: nat)
  {
    |s| >= k + 1 && s[|s| - k - 1] == '.' && AllLower(s[|s| - k..]) &&
    var rest := s[..|s| - k - 1];
    match IndexOf(rest, '@')
    case None => false
    case Some(at) => at > 0 && at + 1 < |rest| && AllLocal(rest[..at]) && AllDomain(rest[at + 1..])
  }

  predicate EmailMatches(s: string)
  {
    MatchesWithTld(s, 2) || MatchesWithTld(s, 3) || MatchesWithTld(s, 4)
  }

  lemma {:induction false} MatchesAreSplits(s: string)
    requires EmailMatches(s)
    ensures EmailPattern(s)
  {
    var k := if MatchesWithTld(s, 2) then 2 else if MatchesWithTld(s, 3) then 3 else 4;
    var dot := |s| - k - 1;
    var rest := s[..dot];
    var at := IndexOf(rest, '@').value;
    assert rest[..at] == s[..at];
    assert rest[at + 1..] == s[at + 1..dot];
    assert EmailSplit(s, at, dot);
  }

  lemma {:induction false} SplitsAreMatches(s: string, at: int, dot: int)
    requires EmailSplit(s, at, dot)
    ensures EmailMatches(s)
  {
    var k := |s| - dot - 1;
    var rest := s[..dot];
    assert rest[..at] == s[..at];
    assert '@' !in rest[..at] by {
      forall c | c in rest[..at] ensures c != '@' {
        var q :| 0 <= q < at && rest[..at][q] == c;
        assert LocalChar(s[..at][q]);
      }
    }
    assert forall f :: 0 <= f < at ==> rest[..at][f] == rest[f];
    assert forall f :: at < f <= |rest| ==> rest[..f][at] == '@';
    assert IndexOf(rest, '@') == Some(at);
    assert rest[at + 1..] == s[at + 1..dot];
    assert MatchesWithTld(s, k);
  }

  /** The checking procedure decides the pattern exactly. */
  lemma EmailMatchesIffPattern(s: string)
    ensures EmailMatches(s) <==> EmailPattern(s)
  {
    if EmailMatches(s) {
      MatchesAreSplits(s);
    }
    if EmailPattern(s) {
      var at, dot :| EmailSplit(s, at, dot);
      SplitsAreMatches(s, at, dot);
    }
  }

  lemma {:induction false} SplitHasNoUpperCase(s: string, at: int, dot: int)
    requires EmailSplit(s, at, dot)
    ensures forall i :: 0 <= i < |s| ==> !IsUpper(s[i])
  {
    forall i | 0 <= i < |s|
      ensures !IsUpper(s[i])
    {
      if i < at {
        assert LocalChar(s[..at][i]);
      } else if at < i < dot {
        assert DomainChar(s[at + 1..dot][i - at - 1]);
      } else if dot < i {
        assert IsLower(s[dot + 1..][i - dot - 1]);
      }
    }
  }

  /** The pattern admits no upper-case letter anywhere. */
  lemma EmailPatternRejectsUpperCase(s: string, i: int)
    requires 0 <= i < |s| && IsUpper(s[i])
    ensures !EmailPattern(s)
  {
    if EmailPattern(s) {
      var at, dot :| EmailSplit(s, at, dot);
      SplitHasNoUpperCase(s, at, dot);
    }
  }

  /** `patient_email`: required and matching the pattern. */
  predicate EmailValid(email: string)
  {
    email != "" && EmailMatches(email)
  }

  /** `patient_phone`: required and matching `[0-9]{6,}`, which Angular
      anchors at both ends: six or more digits and nothing else. */
  predicate PhoneValid(phone: string)
  {
    phone != "" && AllDigits(phone) && |phone| >= 6
  }

  lemma FivePhoneDigitsRejected()
    ensures !PhoneValid("12345") && PhoneValid("123456")
  {
  }

  predicate FormValid(name: string, email: string, phone: string)
  {
    NameValid(name) && EmailValid(email) && PhoneValid(phone)
  }

  /** The name prefilled for a logged-in user: `first last`, trimmed, when
      a first name is set. */
  function PrefillName(u: User): (name: string)
    ensures u.firstName.None? || u.firstName.value == "" ==> name == ""
    ensures u.firstName.Some? && u.firstName.value != "" ==>
      name == Trim(u.firstName.value + " " + u.lastName.GetOr(""))
  {
    if u.firstName.Some? && u.firstName.value != ""
    then Trim(u.firstName.value + " " + u.lastName.GetOr(""))
    else ""
  }

  /** The user, if any, whose email is prefilled. */
  predicate Prefills(currentUser: Option<User>)
  {
    currentUser.Some? && currentUser.value.email != ""
  }

  const InvalidFormMessage := "Bitte füllen Sie alle erforderlichen Felder korrekt aus."

  /** The component: the selected appointment, the three form values
      (a control reset to null reads ""), and the requests emitted so far. */
  class BookingFormComponent {
    var appointment: Option<Appointment>
    var patientName: string
    var patientEmail: string
    var patientPhone: string
    var submitted: bool
    var errorMessage: Option<string>
    var emitted: seq<AppointmentBookingRequest>

    constructor ()
      ensures appointment == None && patientName == "" && patientEmail == "" && patientPhone == ""
      ensures !submitted && errorMessage == None && emitted == []
    {
      appointment := None;
      patientName, patientEmail, patientPhone := "", "", "";
      submitted := false;
      errorMessage := None;
      emitted := [];
    }

    /** ngOnInit: a fresh form, prefilled for a logged-in user with an
        email. */
    method NgOnInit(currentUser: Option<User>)
      modifies this
      ensures Prefills(currentUser) ==>
        patientEmail == currentUser.value.email && patientName == PrefillName(currentUser.value)
      ensures !Prefills(currentUser) ==> patientEmail == "" && patientName == ""
      ensures patientPhone == ""
      ensures appointment == old(appointment) && submitted == old(submitted)
      ensures errorMessage == old(errorMessage) && emitted == old(emitted)
    {
      patientName, patientEmail, patientPhone := "", "", "";
      if Prefills(currentUser) {
        patientEmail := currentUser.value.email;
        patientName := PrefillName(currentUser.value);
      }
    }

    /** resetForm: every control cleared except the prefill, and the
        submission state forgotten. */
    method ResetForm(currentUser: Option<User>)
      modifies this
      ensures Prefills(currentUser) ==>
        patientEmail == currentUser.value.email && patientName == PrefillName(currentUser.value)
      ensures !Prefills(currentUser) ==> patientEmail == "" && patientName == ""
      ensures patientPhone == ""
      ensures errorMessage == None && !submitted
      ensures appointment == old(appointment) && emitted == old(emitted)
    {
      if Prefills(currentUser) {
        patientEmail := currentUser.value.email;
        patientName := PrefillName(currentUser.value);
        patientPhone := "";
      } else {
        patientName, patientEmail, patientPhone := "", "", "";
      }
      errorMessage := None;
      submitted := false;
    }

    /** ngOnChanges for a new appointment input: a non-null appointment
        resets the form. */
    method OnAppointmentChange(a: Option<Appointment>, currentUser: Option<User>)
      modifies this
      ensures appointment == a && emitted == old(emitted)
      ensures a.Some? ==> errorMessage == None && !submitted && patientPhone == ""
      ensures a.Some? && Prefills(currentUser) ==>
        patientEmail == currentUser.value.email && patientName == PrefillName(currentUser.value)
      ensures a.Some? && !Prefills(currentUser) ==> patientEmail == "" && patientName == ""
      ensures a.None? ==> patientName == old(patientName) && patientEmail == old(patientEmail)
                          && patientPhone == old(patientPhone) && errorMessage == old(errorMessage)
                          && submitted == old(submitted)
    {
      appointment := a;
      if a.Some? {
        ResetForm(currentUser);
      }
    }

    /** onSubmit: an invalid form, or an appointment without an id (or with
        id 0), sets the error message and emits nothing; otherwise the
        request for the appointment's id and the three values is emitted. */
    method OnSubmit()
      modifies this
      ensures submitted
      ensures var ok := FormValid(patientName, patientEmail, patientPhone)
                        && appointment.Some? && appointment.value.id.Some? && appointment.value.id.value != 0;
        && (!ok ==> errorMessage == Some(InvalidFormMessage) && emitted == old(emitted))
        && (ok ==>
              && errorMessage == None
              && emitted == old(emitted) + [AppointmentBookingRequest(appointment.value.id.value,
                                              patientName, patientEmail, patientPhone)])
      ensures appointment == old(appointment) && patientName == old(patientName)
      ensures patientEmail == old(patientEmail) && patientPhone == old(patientPhone)
    {
      submitted := true;
      errorMessage := None;
      if !(NameValid(patientName) && EmailValid(patientEmail) && PhoneValid(patientPhone))
         || appointment.None? || appointment.value.id.None? || appointment.value.id.value == 0
      {
        errorMessage := Some(InvalidFormMessage);
        return;
      }
      var bookingRequest := AppointmentBookingRequest(appointment.value.id.value,
                                                      patientName, patientEmail, patientPhone);
      emitted := emitted + [bookingRequest];
    }
  }
}
