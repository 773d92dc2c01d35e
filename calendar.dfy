/** The calendar view: a Monday-first grid of 6 x 7 days for the viewed month,
    each day holding the appointments dated on it, with month navigation, day
    selection, the end time shown for an appointment, and the loading of the
    appointments it displays (all for an administrator, the free ones plus
    the user's own bookings for a patient). */
module CalendarView {
  import opened Wrappers
  import opened AppointmentModel
  import opened Text
  import opened Gregorian
  import opened AuthModel
  import AppointmentApi

  /** One cell of the grid; `month` is 0-based. */
  datatype CalendarDay = CalendarDay(day: int, month: int, year: int, isCurrentMonth: bool, events: seq<Appointment>)

  /** The (day, month, year) a cell stands for. */
  function DayKey(c: CalendarDay): (int, int, int)
  {
    (c.day, c.month, c.year)
  }

  /** `new Date(date)` read back through `getDate()`, `getMonth()` and
      `getFullYear()`: a `YYYY-MM-DD` string names that day (month 0-based);
      anything else is an invalid date, which matches no cell. */
  function DateKey(date: string): (r: Option<(int, int, int)>)
    ensures r.Some? ==> 0 <= r.value.1 < 12 && 1 <= r.value.0 <= DaysInMonth(r.value.2, r.value.1)
  {
    if |date| == 10 && date[4] == '-' && date[7] == '-'
       && AllDigits(date[..4]) && AllDigits(date[5..7]) && AllDigits(date[8..])
    then
      var year, month, day := ParseNat(date[..4]), ParseNat(date[5..7]), ParseNat(date[8..]);
      if 1 <= month <= 12 && 1 <= day <= DaysInMonth(year, month - 1)
      then Some((day, month - 1, year)) else None
    else None
  }

  /** The number of cells before the 1st: its weekday counted from Monday,
      so that a Sunday gives 6. */
  function StartDay(y: int, m: int): (lead: int)
    requires 0 <= m < 12
    ensures 0 <= lead <= 6
    ensures lead == (Weekday(y, m, 1) + 6) % 7
  {
    var startDay := Weekday(y, m, 1) - 1;
    if startDay == -1 then 6 else startDay
  }

  /** Cell `i` of the grid of month `m` of year `y`, before appointments are
      assigned. */
  function GridCell(y: int, m: int, i: int): CalendarDay
    requires 0 <= m < 12
  {
    var lead, length := StartDay(y, m), DaysInMonth(y, m);
    var prev, next := PreviousMonth(y, m), NextMonth(y, m);
    if i < lead then
      CalendarDay(DaysInMonth(prev.0, prev.1) - (lead - 1 - i), prev.1, prev.0, false, [])
    else if i < lead + length then
      CalendarDay(i - lead + 1, m, y, true, [])
    else
      CalendarDay(i - lead - length + 1, next.1, next.0, false, [])
  }

  function BlankGrid(y: int, m: int): seq<CalendarDay>
    requires 0 <= m < 12
  {
    seq(42, i requires 0 <= i < 42 => GridCell(y, m, i))
  }

  predicate OnDay(c: CalendarDay, key: Option<(int, int, int)>)
  {
    key == Some(DayKey(c))
  }

  /** The first cell at or after `from` that stands for the given date. */
  function FirstMatch(days: seq<CalendarDay>, key: Option<(int, int, int)>, from: nat): (r: Option<nat>)
    ensures r.Some? ==> from <= r.value < |days| && OnDay(days[r.value], key)
    ensures r.Some? ==> forall k :: from <= k < r.value ==> !OnDay(days[k], key)
    ensures r.None? ==> forall k :: from <= k < |days| ==> !OnDay(days[k], key)
    decreases |days| - from
  {
    if from >= |days| then None
    else if OnDay(days[from], key) then Some(from)
    else FirstMatch(days, key, from + 1)
  }

  /** Appends the appointment to the first cell of its date, if any. */
  function Place(days: seq<CalendarDay>, a: Appointment): seq<CalendarDay>
  {
    match FirstMatch(days, DateKey(a.date), 0)
    case Some(j) => days[j := days[j].(events := days[j].events + [a])]
    case None => days
  }

  function PlaceAll(days: seq<CalendarDay>, apps: seq<Appointment>): seq<CalendarDay>
    decreases |apps|
  {
    if apps == [] then days else Place(PlaceAll(days, apps[..|apps| - 1]), apps[|apps| - 1])
  }

  /** The grid generateCalendar builds for month `m` of year `y`. */
  function CalendarGrid(y: int, m: int, apps: seq<Appointment>): seq<CalendarDay>
    requires 0 <= m < 12
  {
    PlaceAll(BlankGrid(y, m), apps)
  }

  /** The appointments, in input order, whose date is `key`. */
  function EventsOn(apps: seq<Appointment>, key: Option<(int, int, int)>): seq<Appointment>
    decreases |apps|
  {
    if apps == [] then []
    else EventsOn(apps[..|apps| - 1], key)
         + (if DateKey(apps[|apps| - 1].date) == key then [apps[|apps| - 1]] else [])
  }

  lemma {:induction false} EventsOnMembers(apps: seq<Appointment>, key: Option<(int, int, int)>)
    ensures forall a :: a in EventsOn(apps, key) <==> a in apps && DateKey(a.date) == key
    decreases |apps|
  {
    if apps != [] {
      var front := apps[..|apps| - 1];
      EventsOnMembers(front, key);
      assert apps == front + [apps[|apps| - 1]];
    }
  }

  predicate DistinctDays(days: seq<CalendarDay>)
  {
    forall i, j :: 0 <= i < j < |days| ==> DayKey(days[i]) != DayKey(days[j])
  }

  /** Placing appointments changes only the event lists. */
  lemma {:induction false} PlaceAllKeepsDays(days: seq<CalendarDay>, apps: seq<Appointment>)
    ensures |PlaceAll(days, apps)| == |days|
    ensures forall i :: 0 <= i < |days| ==>
      DayKey(PlaceAll(days, apps)[i]) == DayKey(days[i])
      && PlaceAll(days, apps)[i].isCurrentMonth == days[i].isCurrentMonth
    decreases |apps|
  {
    if apps != [] {
      PlaceAllKeepsDays(days, apps[..|apps| - 1]);
    }
  }

  /** With distinct cells, each cell receives exactly the appointments dated
      on it, in input order. */
  lemma {:induction false} PlaceAllEvents(days: seq<CalendarDay>, apps: seq<Appointment>)
    requires DistinctDays(days)
    ensures |PlaceAll(days, apps)| == |days|
    ensures forall i :: 0 <= i < |days| ==>
      PlaceAll(days, apps)[i].events == days[i].events + EventsOn(apps, Some(DayKey(days[i])))
    decreases |apps|
  {
    PlaceAllKeepsDays(days, apps);
    if apps != [] {
      var front, a := apps[..|apps| - 1], apps[|apps| - 1];
      PlaceAllEvents(days, front);
      PlaceAllKeepsDays(days, front);
      var before := PlaceAll(days, front);
      var key := DateKey(a.date);
      forall i | 0 <= i < |days|
        ensures PlaceAll(days, apps)[i].events == days[i].events + EventsOn(apps, Some(DayKey(days[i])))
      {
        match FirstMatch(before, key, 0)
        case Some(j) =>
          if i == j {
            assert key == Some(DayKey(days[i]));
          } else {
            assert DayKey(days[i]) != DayKey(days[j]);
          }
        case None =>
          assert !OnDay(before[i], key);
      }
    }
  }

  /** The three blocks of the grid: the tail of the previous month, the
      whole current month, and the head of the next month. */
  lemma GridCellBlocks(y: int, m: int, i: int)
    requires 0 <= m < 12 && 0 <= i < 42
    ensures var c, lead, length := GridCell(y, m, i), StartDay(y, m), DaysInMonth(y, m);
      var prev, next := PreviousMonth(y, m), NextMonth(y, m);
      && (c.isCurrentMonth <==> lead <= i < lead + length)
      && (i < lead ==>
            c.month == prev.1 && c.year == prev.0 && c.day == DaysInMonth(prev.0, prev.1) - lead + 1 + i)
      && (lead <= i < lead + length ==> c.month == m && c.year == y && c.day == i - lead + 1)
      && (lead + length <= i ==> c.month == next.1 && c.year == next.0 && c.day == i - lead - length + 1)
      && 1 <= c.day <= 31
  {
  }

  lemma {:induction false} BlankGridDistinct(y: int, m: int)
    requires 0 <= m < 12
    ensures DistinctDays(BlankGrid(y, m))
  {
    var g := BlankGrid(y, m);
    forall i, j | 0 <= i < j < 42
      ensures DayKey(g[i]) != DayKey(g[j])
    {
      GridCellBlocks(y, m, i);
      GridCellBlocks(y, m, j);
    }
  }

  /** generateCalendar always yields 42 cells laid out as the three blocks,
      no two cells standing for the same date, and each cell holding exactly
      the appointments dated on it, in input order: an appointment lands in
      at most one cell, and one whose date is not in the grid in none. */
  lemma CalendarGridShape(y: int, m: int, apps: seq<Appointment>)
    requires 0 <= m < 12
    ensures var g := CalendarGrid(y, m, apps);
      && |g| == 42
      && DistinctDays(g)
      && forall i :: 0 <= i < 42 ==>
           DayKey(g[i]) == DayKey(GridCell(y, m, i))
           && g[i].isCurrentMonth == GridCell(y, m, i).isCurrentMonth
           && g[i].events == EventsOn(apps, Some(DayKey(g[i])))
  {
    BlankGridDistinct(y, m);
    PlaceAllKeepsDays(BlankGrid(y, m), apps);
    PlaceAllEvents(BlankGrid(y, m), apps);
  }

  /** generateCalendar, as the source computes it: three counting loops fill
      the blank grid, then each appointment is pushed onto the first cell of
      its date. */
  method BuildCalendar(year: int, month: int, apps: seq<Appointment>) returns (days: seq<CalendarDay>)
    requires 0 <= month < 12
    ensures days == CalendarGrid(year, month, apps)
  {
    var startDay := Weekday(year, month, 1) - 1;
    if startDay == -1 {
      startDay := 6;
    }
    var prev := PreviousMonth(year, month);
    var prevMonthDays := DaysInMonth(prev.0, prev.1);
    days := [];
    var i := startDay - 1;
    while i >= 0
      invariant -1 <= i < startDay
      invariant |days| == startDay - 1 - i
      invariant forall k :: 0 <= k < |days| ==> days[k] == GridCell(year, month, k)
    {
      days := days + [CalendarDay(prevMonthDays - i, if month - 1 < 0 then 11 else month - 1,
                                  if month - 1 < 0 then year - 1 else year, false, [])];
      i := i - 1;
    }
    var lastDay := DaysInMonth(year, month);
    i := 1;
    while i <= lastDay
      invariant 1 <= i <= lastDay + 1
      invariant |days| == startDay + i - 1
      invariant forall k :: 0 <= k < |days| ==> days[k] == GridCell(year, month, k)
    {
      days := days + [CalendarDay(i, month, year, true, [])];
      i := i + 1;
    }
    var remainingDays := 42 - |days|;
    i := 1;
    while i <= remainingDays
      invariant 1 <= i <= remainingDays + 1
      invariant |days| == startDay + lastDay + i - 1
      invariant forall k :: 0 <= k < |days| ==> days[k] == GridCell(year, month, k)
    {
      days := days + [CalendarDay(i, if month + 1 > 11 then 0 else month + 1,
                                  if month + 1 > 11 then year + 1 else year, false, [])];
      i := i + 1;
    }
    assert days == BlankGrid(year, month);

    ghost var blank := days;
    var n := 0;
    while n < |apps|
      invariant 0 <= n <= |apps|
      invariant days == PlaceAll(blank, apps[..n])
    {
      var appointment := apps[n];
      var appDate := DateKey(appointment.date);
      ghost var before := days;
      var j := 0;
      while j < |days|
        invariant 0 <= j <= |days|
        invariant days == before
        invariant FirstMatch(before, appDate, 0) == FirstMatch(before, appDate, j)
      {
        if OnDay(days[j], appDate) {
          days := days[j := days[j].(events := days[j].events + [appointment])];
          break;
        }
        j := j + 1;
      }
      assert days == Place(before, appointment);
      assert apps[..n + 1][..n] == apps[..n];
      n := n + 1;
    }
    assert apps[..n] == apps;
  }

  /** `const [h, m] = start.split(':').map(Number)` plus `duration` minutes,
      as (hours, minutes) numbers; `None` is NaN. */
  function EndClock(start: string, duration: int): (Option<int>, Option<int>)
  {
    match ClockFields(start)
    case (Some(h), Some(m)) =>
      var totalMinutes := h * 60 + m + duration;
      (Some(totalMinutes / 60), Some(JsRemainder(totalMinutes, 60)))
    case _ => (None, None)
  }

  /** JavaScript's `a % b` for `b > 0`: the sign follows the dividend. */
  function JsRemainder(a: int, b: int): (r: int)
    requires b > 0
    ensures a >= 0 ==> r == a % b
    ensures a < 0 ==> -b < r <= 0
  {
    if a >= 0 then a % b else -((-a) % b)
  }

  /** `x.toString().padStart(2, '0')`, and "NaN" for NaN. */
  function NumberText(x: Option<int>): string
  {
    match x
    case Some(v) => PadStart2(IntToString(v))
    case None => "NaN"
  }

  /** calculateEndTime. */
  function CalculateEndTime(a: Appointment): string
  {
    var end := EndClock(a.startTime, a.duration);
    NumberText(end.0) + ":" + NumberText(end.1)
  }

  /** The end time read back gives the start plus the duration in minutes,
      with the minutes in [0, 59]; the hours are not reduced modulo 24. */
  lemma {:induction false} EndTimeAddsDuration(a: Appointment, h: int, m: int)
    requires ClockFields(a.startTime) == (Some(h), Some(m))
    requires h * 60 + m + a.duration >= 0
    ensures var end := ClockFields(CalculateEndTime(a));
      && end.0.Some? && end.1.Some? && end.0.value >= 0
      && end.0.value * 60 + end.1.value == h * 60 + m + a.duration
      && 0 <= end.1.value <= 59
    ensures CalculateEndTime(a) == Pad2((h * 60 + m + a.duration) / 60) + ":" + Pad2((h * 60 + m + a.duration) % 60)
  {
    var total := h * 60 + m + a.duration;
    var endH: nat, endM: nat := total / 60, total % 60;
    assert EndClock(a.startTime, a.duration) == (Some(endH), Some(endM));
    NumberTextOfNat(endH);
    NumberTextOfNat(endM);
    assert CalculateEndTime(a) == Pad2(endH) + ":" + Pad2(endM);
    Pad2Value(endH);
    Pad2Value(endM);
    ClockFieldsOfRendered(Pad2(endH), Pad2(endM));
  }

  lemma NumberTextOfNat(n: nat)
    ensures NumberText(Some(n)) == Pad2(n)
  {
  }

  lemma ClockOf2350()
    ensures ClockFields("23:50") == (Some(23), Some(50))
  {
    assert NatToString(23) == "23" && NatToString(50) == "50";
    ParseNatToString(23);
    ParseNatToString(50);
    ClockFieldsOfRendered("23", "50");
    assert "23:50" == "23" + ":" + "50";
  }

  lemma Text2420()
    ensures NumberText(Some(24)) + ":" + NumberText(Some(20)) == "24:20"
  {
    NumberTextOfNat(24);
    NumberTextOfNat(20);
    assert NatToString(24) == "24" && NatToString(20) == "20";
  }

  /** "23:50" plus 30 minutes gives "24:20": no wrap at midnight. */
  lemma EndTimeDoesNotWrap(a: Appointment)
    requires a.startTime == "23:50" && a.duration == 30
    ensures CalculateEndTime(a) == "24:20"
  {
    ClockOf2350();
    assert EndClock(a.startTime, a.duration) == (Some(24), Some(20));
    Text2420();
  }

  /** The fallback's filter: the booked appointments of the given email. */
  function BookedBy(apps: seq<Appointment>, email: string): (r: seq<Appointment>)
    ensures forall a :: a in r <==> a in apps && a.patientEmail == Some(email) && a.status == Booked
    ensures |r| <= |apps|
  {
    if apps == [] then []
    else
      assert apps == [apps[0]] + apps[1..];
      (if apps[0].patientEmail == Some(email) && apps[0].status == Booked then [apps[0]] else [])
      + BookedBy(apps[1..], email)
  }

  /** The filter keeps the order of the appointments: it distributes over
      concatenation. */
  lemma {:induction false} BookedByAppend(x: seq<Appointment>, y: seq<Appointment>, email: string)
    ensures BookedBy(x + y, email) == BookedBy(x, email) + BookedBy(y, email)
  {
    if x == [] {
      assert x + y == y;
    } else {
      assert (x + y)[1..] == x[1..] + y;
      BookedByAppend(x[1..], y, email);
    }
  }

  /** On one appointment the filter keeps it exactly when it is booked under
      the email. */
  lemma BookedByOne(a: Appointment, email: string)
    ensures BookedBy([a], email) == if a.patientEmail == Some(email) && a.status == Booked then [a] else []
  {
    assert [a][1..] == [];
  }

  /** The calendar component's state. `currentDate` is (year, month, day). */
  class CalendarComponent {
    const service: AppointmentApi.AppointmentService
    var currentDate: (int, int, int)
    var calendarDays: seq<CalendarDay>
    var selectedDay: Option<CalendarDay>
    var selectedDayEvents: seq<Appointment>
    var appointments: seq<Appointment>
    var isLoading: bool

    ghost predicate Valid()
      reads this
    {
      0 <= currentDate.1 < 12
    }

    constructor (service: AppointmentApi.AppointmentService, today: (int, int, int))
      requires 0 <= today.1 < 12
      ensures Valid() && this.service == service && currentDate == today
      ensures calendarDays == [] && selectedDay == None && selectedDayEvents == []
      ensures appointments == [] && !isLoading
    {
      this.service := service;
      currentDate := today;
      calendarDays := [];
      selectedDay := None;
      selectedDayEvents := [];
      appointments := [];
      isLoading := false;
    }

    /** generateCalendar: the grid of the viewed month over the component's
        appointments. */
    method GenerateCalendar()
      requires Valid()
      modifies this
      ensures Valid()
      ensures calendarDays == CalendarGrid(currentDate.0, currentDate.1, appointments)
      ensures currentDate == old(currentDate) && appointments == old(appointments)
      ensures selectedDay == old(selectedDay) && selectedDayEvents == old(selectedDayEvents)
      ensures isLoading == old(isLoading)
    {
      calendarDays := BuildCalendar(currentDate.0, currentDate.1, appointments);
    }

    /** previousMonth: the 1st of the month before, with the year carried. */
    method PreviousMonth()
      requires Valid()
      modifies this
      ensures Valid()
      ensures currentDate == (Gregorian.PreviousMonth(old(currentDate.0), old(currentDate.1)).0,
                              Gregorian.PreviousMonth(old(currentDate.0), old(currentDate.1)).1, 1)
      ensures calendarDays == CalendarGrid(currentDate.0, currentDate.1, appointments)
      ensures appointments == old(appointments) && selectedDay == old(selectedDay)
      ensures selectedDayEvents == old(selectedDayEvents) && isLoading == old(isLoading)
    {
      var p := Gregorian.PreviousMonth(currentDate.0, currentDate.1);
      currentDate := (p.0, p.1, 1);
      GenerateCalendar();
    }

    /** nextMonth: the 1st of the month after, with the year carried. */
    method NextMonth()
      requires Valid()
      modifies this
      ensures Valid()
      ensures currentDate == (Gregorian.NextMonth(old(currentDate.0), old(currentDate.1)).0,
                              Gregorian.NextMonth(old(currentDate.0), old(currentDate.1)).1, 1)
      ensures calendarDays == CalendarGrid(currentDate.0, currentDate.1, appointments)
      ensures appointments == old(appointments) && selectedDay == old(selectedDay)
      ensures selectedDayEvents == old(selectedDayEvents) && isLoading == old(isLoading)
    {
      var n := Gregorian.NextMonth(currentDate.0, currentDate.1);
      currentDate := (n.0, n.1, 1);
      GenerateCalendar();
    }

    /** selectDay: remembers the day and shows its appointments. */
    method SelectDay(day: CalendarDay)
      modifies this
      ensures selectedDay == Some(day) && selectedDayEvents == day.events
      ensures currentDate == old(currentDate) && calendarDays == old(calendarDays)
      ensures appointments == old(appointments) && isLoading == old(isLoading)
    {
      selectedDay := Some(day);
      selectedDayEvents := day.events;
    }

    /** fallbackLoadUserAppointments: redraws, then, for an administrator,
        loads every appointment (which also refreshes the service's mirror)
        and appends the booked ones of `email` when there are any. */
    method FallbackLoadUserAppointments(email: string, isAdmin: bool,
                                        allResponse: Result<seq<AppointmentApi.TerminRecord>, HttpError>)
      requires Valid()
      modifies this, service
      ensures Valid() && currentDate == old(currentDate)
      ensures var found := if isAdmin && allResponse.Ok?
                           then BookedBy(AppointmentApi.ConvertAll(allResponse.value), email) else [];
        appointments == old(appointments) + found
      ensures calendarDays == CalendarGrid(currentDate.0, currentDate.1, appointments)
      ensures isAdmin && allResponse.Ok? ==> service.appointments == AppointmentApi.ConvertAll(allResponse.value)
      ensures !(isAdmin && allResponse.Ok?) ==> service.appointments == old(service.appointments)
      ensures selectedDay == old(selectedDay) && selectedDayEvents == old(selectedDayEvents)
      ensures isLoading == old(isLoading)
    {
      GenerateCalendar();
      if isAdmin {
        var all := service.GetAppointments(allResponse);
        if all.Ok? {
          var userAppointments := BookedBy(all.value, email);
          if |userAppointments| > 0 {
            appointments := appointments + userAppointments;
            GenerateCalendar();
          }
        }
      }
    }

    /** loadUserAppointments: with no user or no email, just redraws;
        otherwise appends the user's appointments when there are any (no
        de-duplication), falling back as above when the request fails. */
    method LoadUserAppointments(currentUser: Option<User>, isAdmin: bool,
                                userServer: string -> Result<seq<AppointmentApi.TerminRecord>, HttpError>,
                                allResponse: Result<seq<AppointmentApi.TerminRecord>, HttpError>)
      requires Valid()
      modifies this, service
      ensures Valid() && currentDate == old(currentDate)
      ensures currentUser.None? || currentUser.value.email == "" ==> appointments == old(appointments)
      ensures currentUser.Some? && currentUser.value.email != "" ==>
        var email := currentUser.value.email;
        match userServer(email)
        case Ok(data) => appointments == old(appointments) + AppointmentApi.ConvertAll(data)
        case Err(_) =>
          appointments == old(appointments)
            + (if isAdmin && allResponse.Ok?
               then BookedBy(AppointmentApi.ConvertAll(allResponse.value), email) else [])
      ensures calendarDays == CalendarGrid(currentDate.0, currentDate.1, appointments)
      ensures service.appointments ==
        if currentUser.Some? && currentUser.value.email != "" && userServer(currentUser.value.email).Err?
           && isAdmin && allResponse.Ok?
        then AppointmentApi.ConvertAll(allResponse.value)
        else old(service.appointments)
      ensures selectedDay == old(selectedDay) && selectedDayEvents == old(selectedDayEvents)
      ensures isLoading == old(isLoading)
    {
      if currentUser.None? || currentUser.value.email == "" {
        GenerateCalendar();
        return;
      }
      var email := currentUser.value.email;
      var fetched := service.GetUserAppointments(email, userServer);
      var userAppointments: seq<Appointment>;
      if fetched.Err? {
        FallbackLoadUserAppointments(email, isAdmin, allResponse);
        userAppointments := [];
      } else {
        userAppointments := fetched.value;
      }
      if |userAppointments| > 0 {
        appointments := appointments + userAppointments;
      }
      GenerateCalendar();
    }

    /** loadAppointments: an administrator loads every appointment (and the
        service's mirror with them), anyone else the free ones; a failed load
        counts as an empty list. A patient then adds their own bookings. */
    method LoadAppointments(isAdminUser: bool, currentUser: Option<User>,
                            listResponse: Result<seq<AppointmentApi.TerminRecord>, HttpError>,
                            userServer: string -> Result<seq<AppointmentApi.TerminRecord>, HttpError>,
                            allResponse: Result<seq<AppointmentApi.TerminRecord>, HttpError>)
      requires Valid()
      modifies this, service
      ensures Valid() && currentDate == old(currentDate) && !isLoading
      ensures var loaded := if listResponse.Ok? then AppointmentApi.ConvertAll(listResponse.value) else [];
        && |loaded| <= |appointments| && appointments[..|loaded|] == loaded
        && (isAdminUser || currentUser.None? ==> appointments == loaded)
        && (!isAdminUser && currentUser.Some? ==>
              var email := currentUser.value.email;
              appointments == loaded
                + (if email != "" && userServer(email).Ok? then AppointmentApi.ConvertAll(userServer(email).value) else []))
      ensures calendarDays == CalendarGrid(currentDate.0, currentDate.1, appointments)
      ensures service.appointments ==
        if isAdminUser && listResponse.Ok? then AppointmentApi.ConvertAll(listResponse.value)
        else old(service.appointments)
      ensures selectedDay == old(selectedDay) && selectedDayEvents == old(selectedDayEvents)
    {
      isLoading := true;
      var result: Result<seq<Appointment>, HttpError>;
      if isAdminUser {
        result := service.GetAppointments(listResponse);
      } else {
        result := service.GetFreeAppointments(listResponse);
      }
      var loaded := if result.Ok? then result.value else [];
      appointments := loaded;
      if !isAdminUser && currentUser.Some? {
        LoadUserAppointments(currentUser, isAdminUser, userServer, allResponse);
      } else {
        GenerateCalendar();
      }
      isLoading := false;
    }
  }
}
