/** The list of free appointments a patient picks from: loading the list,
    selecting an appointment to open the booking form, booking it, and the
    start and end times shown for each entry. */
module FreeAppointmentsView {
  import opened Wrappers
  import opened AppointmentModel
  import opened Text
  import AppointmentApi
  import CalendarView

  /** formatTime: the stored time is shown as it is. */
  function FormatTime(timeString: string): (shown: string)
    ensures shown == timeString
  {
    timeString
  }

  /** The (hours, minutes) numbers of calculateEndTime: the duration is added
      to the minutes, and only when they reach 60 are whole hours carried
      into the hours. `None` is NaN. */
  function EndClock(startTime: string, duration: int): (Option<int>, Option<int>)
  {
    var fields := ClockFields(startTime);
    var hours, minutes := fields.0, fields.1;
    var endMinutes := if minutes.Some? then Some(minutes.value + duration) else None;
    if endMinutes.Some? && endMinutes.value >= 60 then
      (if hours.Some? then Some(hours.value + endMinutes.value / 60) else None,
       Some(CalendarView.JsRemainder(endMinutes.value, 60)))
    else (hours, endMinutes)
  }

  /** calculateEndTime. */
  function CalculateEndTime(startTime: string, duration: int): string
  {
    var end := EndClock(startTime, duration);
    CalendarView.NumberText(end.0) + ":" + CalendarView.NumberText(end.1)
  }

  /** The hours are left alone while the minutes stay below 60; otherwise
      the carry is floor((m + duration) / 60) and the minutes fall in
      [0, 59]. Either way the end is the start plus the duration. */
  lemma EndClockCarry(startTime: string, duration: int, h: int, m: int)
    requires ClockFields(startTime) == (Some(h), Some(m))
    requires m + duration >= 0
    ensures var end := EndClock(startTime, duration);
      && end.0.Some? && end.1.Some?
      && end.0.value * 60 + end.1.value == h * 60 + m + duration
      && (m + duration < 60 ==> end.0 == Some(h))
      && (m + duration >= 60 ==> 0 <= end.1.value <= 59)
  {
  }

  /** Read back, the rendered end time gives the start plus the duration,
      with the minutes in [0, 59] and the hours not reduced modulo 24. */
  lemma {:induction false} EndTimeAddsDuration(startTime: string, duration: int, h: int, m: int)
    requires ClockFields(startTime) == (Some(h), Some(m))
    requires m + duration >= 0
    ensures var end := ClockFields(CalculateEndTime(startTime, duration));
      && end.0.Some? && end.1.Some? && end.0.value >= 0
      && end.0.value * 60 + end.1.value == h * 60 + m + duration
      && 0 <= end.1.value <= 59
    ensures CalculateEndTime(startTime, duration) == Pad2(h + (m + duration) / 60) + ":" + Pad2((m + duration) % 60)
  {
    var v := m + duration;
    var endH: nat, endM: nat := h + v / 60, v % 60;
    assert EndClock(startTime, duration) == (Some(endH), Some(endM));
    CalendarView.NumberTextOfNat(endH);
    CalendarView.NumberTextOfNat(endM);
    assert CalculateEndTime(startTime, duration) == Pad2(endH) + ":" + Pad2(endM);
    Pad2Value(endH);
    Pad2Value(endM);
    ClockFieldsOfRendered(Pad2(endH), Pad2(endM));
  }

  lemma DivideAfterWholeHours(h: int, v: int)
    requires v >= 0
    ensures (h * 60 + v) / 60 == h + v / 60
    ensures (h * 60 + v) % 60 == v % 60
  {
    var q, r := v / 60, v % 60;
    assert v == q * 60 + r;
    assert h * 60 + v == (h + q) * 60 + r;
  }

  /** Where the minutes are a number and the duration does not take them
      below zero, this list's end time and the calendar's agree. */
  lemma {:induction false} AgreesWithCalendar(a: Appointment, h: int, m: int)
    requires ClockFields(a.startTime) == (Some(h), Some(m))
    requires m + a.duration >= 0
    ensures CalculateEndTime(a.startTime, a.duration) == CalendarView.CalculateEndTime(a)
  {
    var v := m + a.duration;
    DivideAfterWholeHours(h, v);
    assert h * 60 + m + a.duration == h * 60 + v;
    assert EndClock(a.startTime, a.duration) == CalendarView.EndClock(a.startTime, a.duration);
  }

  /** The component's state. The booking form is shown exactly while an
      appointment is selected. */
  class FreeAppointmentsComponent {
    const service: AppointmentApi.AppointmentService
    var freeAppointments: seq<Appointment>
    var isLoading: bool
    var selectedAppointment: Option<Appointment>
    var showBookingForm: bool

    ghost predicate Valid()
      reads this
    {
      showBookingForm <==> selectedAppointment.Some?
    }

    constructor (service: AppointmentApi.AppointmentService)
      ensures Valid() && this.service == service
      ensures freeAppointments == [] && !isLoading && selectedAppointment == None
    {
      this.service := service;
      freeAppointments := [];
      isLoading := false;
      selectedAppointment := None;
      showBookingForm := false;
    }

    /** loadFreeAppointments (also ngOnInit): a failed load shows an empty
        list. */
    method LoadFreeAppointments(response: Result<seq<AppointmentApi.TerminRecord>, HttpError>)
      modifies this
      ensures !isLoading
      ensures freeAppointments == if response.Ok? then AppointmentApi.ConvertAll(response.value) else []
      ensures selectedAppointment == old(selectedAppointment) && showBookingForm == old(showBookingForm)
    {
      isLoading := true;
      var r := service.GetFreeAppointments(response);
      freeAppointments := if r.Ok? then r.value else [];
      isLoading := false;
    }

    /** selectAppointment: opens the booking form for the appointment. */
    method SelectAppointment(appointment: Appointment)
      modifies this
      ensures Valid()
      ensures selectedAppointment == Some(appointment) && showBookingForm
      ensures freeAppointments == old(freeAppointments) && isLoading == old(isLoading)
    {
      selectedAppointment := Some(appointment);
      showBookingForm := true;
    }

    /** cancelBooking: closes the form and drops the selection. */
    method CancelBooking()
      modifies this
      ensures Valid()
      ensures selectedAppointment == None && !showBookingForm
      ensures freeAppointments == old(freeAppointments) && isLoading == old(isLoading)
    {
      selectedAppointment := None;
      showBookingForm := false;
    }

    /** handleBooking: a successful booking closes the form and reloads the
        list; a failed one leaves the component as it was. */
    method HandleBooking(request: AppointmentBookingRequest,
                         post: (int, AppointmentApi.BookingBody) -> Result<AppointmentApi.TerminRecord, HttpError>,
                         reload: Result<seq<AppointmentApi.TerminRecord>, HttpError>)
      requires Valid()
      modifies this, service
      ensures Valid()
      ensures var outcome := post(request.appointmentId,
          AppointmentApi.BookingBody(request.patientName, request.patientEmail, request.patientPhone));
        && (outcome.Ok? ==>
              selectedAppointment == None && !showBookingForm && !isLoading
              && freeAppointments == (if reload.Ok? then AppointmentApi.ConvertAll(reload.value) else [])
              && var booked := AppointmentApi.ConvertFromBackend(outcome.value);
                 service.appointments == AppointmentApi.ReplaceById(old(service.appointments), booked.id, booked))
        && (outcome.Err? ==>
              selectedAppointment == old(selectedAppointment) && showBookingForm == old(showBookingForm)
              && freeAppointments == old(freeAppointments) && isLoading == old(isLoading)
              && service.appointments == old(service.appointments))
    {
      var appointment := service.BookAppointment(request, post);
      if appointment.Ok? {
        CancelBooking();
        LoadFreeAppointments(reload);
      }
    }
  }
}
