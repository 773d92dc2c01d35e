/** The dialog in which a slot (`Termin`) is created or edited with the
    server's German field names: the mode default, the form's defaults and
    validators, the date formatting, and the values it closes with. */
module TerminDialog {
  import opened Wrappers
  import opened Text
  import opened Gregorian
  import AppointmentApi
  import AppointmentDialog
  import CalendarView

  /** formatDate over a local date (year, 0-based month, day of month):
      `year-MM-DD`, month 1-based, month and day padded to two digits. */
  function FormatDate(year: int, month: int, day: nat): string
    requires 0 <= month < 12
  {
    IntToString(year) + "-" + Pad2(month + 1) + "-" + Pad2(day)
  }

  lemma {:induction false} FourDigitYear(y: nat)
    requires 1000 <= y <= 9999
    ensures |NatToString(y)| == 4
  {
    assert NatToString(y) == NatToString(y / 10) + [DigitChar(y % 10)];
    assert NatToString(y / 10) == NatToString(y / 100) + [DigitChar(y / 10 % 10)];
    assert NatToString(y / 100) == NatToString(y / 1000) + [DigitChar(y / 100 % 10)];
  }

  /** For four-digit years the formatted date is exactly the `YYYY-MM-DD`
      form the calendar reads back as the same day. */
  lemma {:induction false} FormatDateRoundTrip(year: int, month: int, day: nat)
    requires 1000 <= year <= 9999 && 0 <= month < 12 && 1 <= day <= DaysInMonth(year, month)
    ensures |FormatDate(year, month, day)| == 10
    ensures CalendarView.DateKey(FormatDate(year, month, day)) == Some((day, month, year))
  {
    FourDigitYear(year);
    ParseNatToString(year);
    Pad2Value(month + 1);
    Pad2Value(day);
    var y, m, d := NatToString(year), Pad2(month + 1), Pad2(day);
    var s := FormatDate(year, month, day);
    assert s == y + "-" + m + "-" + d;
    assert s[..4] == y && s[5..7] == m && s[8..] == d;
  }

  /** `data.mode || 'create'` */
  function Mode(requested: Option<string>): (mode: string)
    ensures requested.Some? && requested.value != "" ==> mode == requested.value
    ensures requested.None? || requested.value == "" ==> mode == "create"
  {
    if requested.Some? && requested.value != "" then requested.value else "create"
  }

  /** What the dialog is opened with: the mode, a preset date and time, and
      for editing the slot to edit. */
  datatype DialogData = DialogData(
    mode: Option<string>,
    datum: Option<string>,
    uhrzeit: Option<string>,
    termin: Option<AppointmentApi.TerminRecord>)

  /** The form's six controls. `beschreibung` is the one control that can
      hold null: editing a slot whose description is null copies it. */
  datatype TerminForm = TerminForm(
    titel: string,
    beschreibung: Option<string>,
    datum: string,
    uhrzeit: string,
    dauerMinuten: int,
    status: string)

  /** The form as the constructor fills it; `today` is (year, 0-based month,
      day). */
  function InitialForm(data: DialogData, today: (int, int, nat)): (f: TerminForm)
    requires 0 <= today.1 < 12
    ensures Mode(data.mode) == "edit" && data.termin.Some? ==>
      var t := data.termin.value;
      f == TerminForm(t.titel, t.beschreibung, t.datum, t.uhrzeit, t.dauerMinuten, t.status)
    ensures !(Mode(data.mode) == "edit" && data.termin.Some?) ==>
      && f.titel == "Freier Termin" && f.beschreibung == Some("") && f.dauerMinuten == 30 && f.status == "frei"
      && f.datum == (if data.datum.Some? && data.datum.value != "" then data.datum.value
                     else FormatDate(today.0, today.1, today.2))
      && f.uhrzeit == (if data.uhrzeit.Some? && data.uhrzeit.value != "" then data.uhrzeit.value else "09:00")
  {
    var defaults := TerminForm(
      "Freier Termin",
      Some(""),
      if data.datum.Some? && data.datum.value != "" then data.datum.value else FormatDate(today.0, today.1, today.2),
      if data.uhrzeit.Some? && data.uhrzeit.value != "" then data.uhrzeit.value else "09:00",
      30,
      "frei");
    if Mode(data.mode) == "edit" && data.termin.Some? then
      var t := data.termin.value;
      defaults.(titel := t.titel, beschreibung := t.beschreibung, datum := t.datum,
                uhrzeit := t.uhrzeit, dauerMinuten := t.dauerMinuten, status := t.status)
    else defaults
  }

  /** The validators: titel, datum and uhrzeit required, dauer at least 15
      minutes with no maximum. */
  predicate FormValid(f: TerminForm)
  {
    f.titel != "" && f.datum != "" && f.uhrzeit != "" && f.dauerMinuten >= 15
  }

  /** onSubmit: the form's values, only when the form is valid. */
  function OnSubmit(f: TerminForm): (closedWith: Option<TerminForm>)
    ensures closedWith.Some? <==> FormValid(f)
    ensures closedWith.Some? ==> closedWith.value == f
  {
    if FormValid(f) then Some(f) else None
  }

  /** Outside edit mode the untouched form is valid and can be submitted as
      it is. */
  lemma {:induction false} DefaultsSubmit(data: DialogData, today: (int, int, nat))
    requires 0 <= today.1 < 12
    requires !(Mode(data.mode) == "edit" && data.termin.Some?)
    ensures OnSubmit(InitialForm(data, today)) == Some(InitialForm(data, today))
  {
    var f := InitialForm(data, today);
    assert |FormatDate(today.0, today.1, today.2)| > 0;
    assert f.titel != "" && f.uhrzeit != "";
  }

  /** This dialog accepts durations the appointment dialog refuses. */
  lemma DurationLimitsDiffer()
    ensures FormValid(TerminForm("Freier Termin", Some(""), "2024-01-01", "09:00", 241, "frei"))
    ensures !AppointmentDialog.DurationValid(241)
  {
  }
}
