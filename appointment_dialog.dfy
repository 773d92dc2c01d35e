/** The dialog in which an administrator creates, edits or views an
    appointment: the mode's flag and title, the form's initial values and
    validators, and the appointment it closes with. The date control is kept
    as the `YYYY-MM-DD` string it is initialised from and submitted as. */
module AppointmentDialog {
  import opened Wrappers
  import opened Text
  import opened AppointmentModel
  import AppointmentApi
  import CalendarView

  datatype DialogMode = Create | Edit | View

  /** isEditMode */
  function IsEditMode(mode: DialogMode): (editable: bool)
    ensures editable <==> mode != View
  {
    mode == Edit || mode == Create
  }

  /** dialogTitle */
  function DialogTitle(mode: DialogMode): string
  {
    if mode == Create then "Neuen Termin erstellen"
    else if mode == Edit then "Termin bearbeiten"
    else "Termin-Details"
  }

  /** Each mode has its own title. */
  lemma TitleDeterminesMode(m1: DialogMode, m2: DialogMode)
    ensures DialogTitle(m1) == DialogTitle(m2) <==> m1 == m2
  {
    assert DialogTitle(Create)[0] == 'N' && DialogTitle(Edit)[0] == 'T' && DialogTitle(View)[0] == 'T';
    assert DialogTitle(Edit)[6] == ' ' && DialogTitle(View)[6] == '-';
  }

  /** The form's six controls. */
  datatype AppointmentForm = AppointmentForm(
    title: string,
    description: string,
    date: string,
    startTime: string,
    duration: int,
    status: Status)

  /** The form as the constructor fills it, from the appointment passed in,
      if any; `today` is the date control's default. */
  function InitialForm(a: Option<Appointment>, today: string): (f: AppointmentForm)
    ensures a.None? ==> f == AppointmentForm("", "", today, "09:00", 30, Free)
    ensures a.Some? ==>
      && f.title == a.value.title
      && f.description == AppointmentApi.OrEmpty(a.value.description)
      && f.date == (if a.value.date != "" then a.value.date else today)
      && f.startTime == (if a.value.startTime != "" then a.value.startTime else "09:00")
      && f.duration == (if a.value.duration != 0 then a.value.duration else 30)
      && f.status == a.value.status
  {
    match a
    case None => AppointmentForm("", "", today, "09:00", 30, Free)
    case Some(x) =>
      AppointmentForm(
        x.title,
        AppointmentApi.OrEmpty(x.description),
        if x.date != "" then x.date else today,
        if x.startTime != "" then x.startTime else "09:00",
        if x.duration != 0 then x.duration else 30,
        x.status)
  }

  /** `[0-1]?[0-9]|2[0-3]` */
  predicate HourText(h: string)
  {
    || (|h| == 1 && IsDigit(h[0]))
    || (|h| == 2 && (h[0] == '0' || h[0] == '1') && IsDigit(h[1]))
    || (|h| == 2 && h[0] == '2' && '0' <= h[1] <= '3')
  }

  /** `[0-5][0-9]` */
  predicate MinuteText(m: string)
  {
    |m| == 2 && '0' <= m[0] <= '5' && IsDigit(m[1])
  }

  /** `start_time`: required and matching `^([0-1]?[0-9]|2[0-3]):[0-5][0-9]$`. */
  predicate StartTimeValid(s: string)
  {
    s != "" && (|s| == 4 || |s| == 5) && s[|s| - 3] == ':'
    && HourText(s[..|s| - 3]) && MinuteText(s[|s| - 2..])
  }

  lemma HourValue(h: string)
    requires HourText(h)
    ensures AllDigits(h) && ParseNat(h) <= 23
  {
    if |h| == 2 {
      ParseNatTwoDigits(h);
    }
  }

  lemma MinuteValue(m: string)
    requires MinuteText(m)
    ensures AllDigits(m) && ParseNat(m) <= 59
  {
    ParseNatTwoDigits(m);
  }

  /** A start time the validator accepts is a clock time the end-time
      computations read as hours 0..23 and minutes 0..59. */
  lemma {:induction false} StartTimeSound(s: string)
    requires StartTimeValid(s)
    ensures var fields := ClockFields(s);
      fields.0.Some? && fields.1.Some? && 0 <= fields.0.value <= 23 && 0 <= fields.1.value <= 59
  {
    var hours, minutes := s[..|s| - 3], s[|s| - 2..];
    assert s == hours + ":" + minutes;
    HourValue(hours);
    MinuteValue(minutes);
    ClockFieldsOfRendered(hours, minutes);
  }

  lemma PaddedHour(h: nat)
    requires h <= 23
    ensures HourText(Pad2(h))
  {
    Pad2Value(h);
    var p := Pad2(h);
    ParseNatTwoDigits(p);
  }

  lemma PaddedMinute(m: nat)
    requires m <= 59
    ensures MinuteText(Pad2(m))
  {
    Pad2Value(m);
    var p := Pad2(m);
    ParseNatTwoDigits(p);
  }

  /** Every clock time from 00:00 to 23:59, written `HH:MM`, is accepted. */
  lemma {:induction false} StartTimeComplete(h: nat, m: nat)
    requires h <= 23 && m <= 59
    ensures StartTimeValid(Pad2(h) + ":" + Pad2(m))
  {
    PaddedHour(h);
    PaddedMinute(m);
    Pad2Value(h);
    Pad2Value(m);
    var s := Pad2(h) + ":" + Pad2(m);
    assert s[..|s| - 3] == Pad2(h) && s[|s| - 2..] == Pad2(m);
  }

  lemma OutOfRangeStartTimesRejected()
    ensures !StartTimeValid("24:00") && !StartTimeValid("12:60")
    ensures StartTimeValid("9:05") && StartTimeValid("23:59")
  {
    assert "24:00"[..2] == "24" && "12:60"[3..] == "60";
    assert "9:05"[..1] == "9" && "9:05"[2..] == "05";
    assert "23:59"[..2] == "23" && "23:59"[3..] == "59";
  }

  /** `duration`: required, between 15 and 240 minutes. */
  predicate DurationValid(d: int)
  {
    15 <= d <= 240
  }

  /** The form is valid when enabled and its controls pass their
      validators (title and date required, the start-time pattern, the
      duration range); in view mode the form is disabled and never valid. */
  predicate FormValid(mode: DialogMode, f: AppointmentForm)
  {
    mode != View && f.title != "" && f.date != "" && StartTimeValid(f.startTime) && DurationValid(f.duration)
  }

  /** onSubmit: closes only with a valid form, with the original
      appointment's fields overridden by the six form values. */
  function OnSubmit(mode: DialogMode, original: Option<Appointment>, f: AppointmentForm): (r: Option<Appointment>)
    ensures r.Some? <==> FormValid(mode, f)
    ensures r.Some? ==>
      && r.value.title == f.title && r.value.description == Some(f.description)
      && r.value.date == f.date && r.value.startTime == f.startTime
      && r.value.duration == f.duration && r.value.status == f.status
    ensures r.Some? && original.Some? ==>
      && r.value.id == original.value.id
      && r.value.patientName == original.value.patientName
      && r.value.patientEmail == original.value.patientEmail
      && r.value.patientPhone == original.value.patientPhone
    ensures r.Some? && original.None? ==>
      r.value.id == None && r.value.patientName == None
      && r.value.patientEmail == None && r.value.patientPhone == None
  {
    if !FormValid(mode, f) then None
    else
      var base := match original
        case Some(a) => a
        case None => Appointment(None, "", None, "", "", 0, None, None, None, Free);
      Some(base.(title := f.title, description := Some(f.description), date := f.date,
                 startTime := f.startTime, duration := f.duration, status := f.status))
  }

  /** An appointment the dialog closes with has an end time that the
      calendar computes without NaN: start plus duration, minutes in 0..59. */
  lemma {:induction false} SubmittedEndTime(mode: DialogMode, original: Option<Appointment>, f: AppointmentForm)
    requires OnSubmit(mode, original, f).Some?
    ensures var a := OnSubmit(mode, original, f).value;
      var start, end := ClockFields(a.startTime), ClockFields(CalendarView.CalculateEndTime(a));
      && start.0.Some? && start.1.Some? && end.0.Some? && end.1.Some?
      && end.0.value * 60 + end.1.value == start.0.value * 60 + start.1.value + a.duration
      && 0 <= end.1.value <= 59
  {
    var a := OnSubmit(mode, original, f).value;
    StartTimeSound(a.startTime);
    var start := ClockFields(a.startTime);
    CalendarView.EndTimeAddsDuration(a, start.0.value, start.1.value);
  }
}
