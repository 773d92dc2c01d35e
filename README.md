# Appointment organizer: scheduling, session and authority rules

This project models the core of a small appointment organizer. A practice
publishes appointment slots (`Termin`). Patients log in, see the free slots
and book one. Administrators create, edit and delete slots in a month
calendar. The browser client keeps a session of JSON Web Tokens, guards its
routes by role, and attaches the access token to every API request. The
server decides who may do what and keeps the slot table consistent.

The model covers these parts:

- **Client records.** The appointment, booking-request and user records
  (`AppointmentModel`, `AuthModel`).
- **Appointment service** (`AppointmentApi`). It translates between the
  server's German field names and the client's records. It also keeps a
  local mirror of the appointment list and updates it after each request.
- **Calendar** (`CalendarView`). It builds the 6 × 7 month grid and places
  each appointment on its day. It also computes end times, moves between
  months and loads the appointments for the current user.
- **Free-appointment list** (`FreeAppointmentsView`) and **booking form**
  (`BookingForm`), with the form's validators, prefill and submit.
- **The two editing dialogs** (`AppointmentDialog`, `TerminDialog`): their
  defaults, validators and results.
- **The session** (`Session`): login, token renewal, the renewal timer,
  logout, restoring from storage, verifying the user, and the role
  predicates.
- **The route guard** (`RouteGuard`) and the **bearer-token interceptor**
  (`BearerInterceptor`).
- **The server.** The `Termin` schema (`TerminModel`), the permission
  classes (`Permissions`) and the view set (`TerminViews`): which class
  guards each action, the list queries, booking, creating, and the
  current-user endpoint.

JavaScript's `Date` is replaced by a proleptic Gregorian calendar
(`Gregorian`). Months are 0-based and weekday 0 is Sunday, as in
JavaScript.

Each network call is modelled in one of two ways:

- A GET's outcome is a `Result` parameter.
- A call that sends a body is a function from the body sent to the
  outcome. This lets a contract say exactly what was sent.

Other modelling choices:

- The clock is a `now` parameter in milliseconds.
- The JWT decoder is a function parameter.
- Browser storage is a `Storage` value with the three stored keys.

Behaviour of the code worth noting:

- `calculateEndTime` (calendar and free list) does not wrap at 24:00.
  `23:50` plus 30 minutes gives `24:20`
  (`CalendarView.EndTimeDoesNotWrap`).
- The free list adds whole hours only when the minutes reach 60. For a
  negative duration its result differs from the calendar's.
  `FreeAppointmentsView.AgreesWithCalendar` states where the two agree.
- The client's two admin tests differ for a superuser who is neither staff
  nor in the `admin` group:
  - `checkIsAdmin` (used by the route guard) counts `is_superuser`;
  - the role signal and the server's `IsAdmin` do not.

  Such a user passes the admin route guard but is refused every write by
  the server (`TerminViews.SuperuserIsAdminOnlyToTheClient`).
- `retrieve` is guarded only by `IsOwnerOrAdmin`'s object check. For a
  request without credentials that check reads the missing email of the
  anonymous user. The result is a server error (500), not a refusal
  (`TerminViews.TerminViewSet.Retrieve`).

## Model

| member | source | states |
|---|---|---|
| AuthModel.RoleName | frontend/src/app/models/auth.model.ts:27-31 | the three roles carry the string values `admin`, `patient`, `unknown`, each exactly one |
| AppointmentApi.OrEmpty | frontend/src/app/services/appointment.service.ts:109-122 | a missing optional text reads as the empty string, a present one as itself |
| AppointmentApi.OrNull | frontend/src/app/services/appointment.service.ts:125-137 | `x \|\| null`: present and non-empty texts are sent, empty and missing ones are sent as null |
| AppointmentApi.FirstFive | frontend/src/app/services/appointment.service.ts:115 | `substring(0, 5)`: a prefix of the text of length min(5, length) |
| AppointmentApi.IngressMapping | frontend/src/app/services/appointment.service.ts:109-122 | convertFromBackend maps titel, beschreibung, datum, dauer_minuten and the patient fields, and `gebucht` to booked, anything else to free |
| AppointmentApi.IngressTruncatesSeconds | frontend/src/app/services/appointment.service.ts:115 | an `HH:MM:SS` time from the server becomes `HH:MM` |
| AppointmentApi.EgressMapping | frontend/src/app/services/appointment.service.ts:125-137 | convertToBackend sends booked as `gebucht` and free as `frei`, the start time unchanged, no id, and each patient field as null exactly when it is empty or missing |
| AppointmentApi.RoundTrip | frontend/src/app/services/appointment.service.ts:109-137 | converting to the server's form and back keeps title, date, start time (first five characters), duration, status and the patient fields |
| AppointmentApi.ConvertAll | frontend/src/app/services/appointment.service.ts:16-21 | the list conversion converts element by element and keeps length and order |
| AppointmentApi.ReplaceById | frontend/src/app/services/appointment.service.ts:64-95 | the mirror update replaces exactly the entries with the given id and keeps all others in place |
| AppointmentApi.ReplaceAbsentKey | frontend/src/app/services/appointment.service.ts:85-95 | replacing an id no entry has leaves the list unchanged |
| AppointmentApi.RemoveByIdContents | frontend/src/app/services/appointment.service.ts:98-106 | after a delete, an entry is in the mirror iff it was before and its id differs from the deleted one |
| AppointmentApi.RemoveKeepsOrder | frontend/src/app/services/appointment.service.ts:98-106 | the delete filter distributes over concatenation, so the survivors keep their order |
| AppointmentApi.AppointmentService.GetAppointments | frontend/src/app/services/appointment.service.ts:16-21 | on success the mirror becomes the converted list and is returned; on failure the mirror is unchanged |
| AppointmentApi.AppointmentService.GetAppointment | frontend/src/app/services/appointment.service.ts:24-28 | the answer is the converted record or the server's error; the mirror is untouched |
| AppointmentApi.AppointmentService.GetFreeAppointments | frontend/src/app/services/appointment.service.ts:31-35 | the free list is converted element by element; errors pass through |
| AppointmentApi.AppointmentService.GetUserAppointments | frontend/src/app/services/appointment.service.ts:38-50 | the user's list is converted; errors pass through; the mirror is untouched |
| AppointmentApi.AppointmentService.CreateAppointment | frontend/src/app/services/appointment.service.ts:53-61 | the body sent is convertToBackend of the appointment; on success the converted answer is appended to the mirror; on failure nothing changes |
| AppointmentApi.AppointmentService.BookAppointment | frontend/src/app/services/appointment.service.ts:64-82 | the booking body carries name, email and phone; on success the mirror entry with that id is replaced by the converted answer |
| AppointmentApi.AppointmentService.UpdateAppointment | frontend/src/app/services/appointment.service.ts:85-95 | the converted appointment is sent; on success the entry with that id is replaced; on failure nothing changes |
| AppointmentApi.AppointmentService.DeleteAppointment | frontend/src/app/services/appointment.service.ts:98-106 | on success the entries with that id leave the mirror; on failure nothing changes |
| Gregorian.DaysInMonth | frontend/src/app/components/calendar/calendar.component.ts:273 | the last day of a month (`new Date(y, m + 1, 0)`) is 28 to 31, 29 for February exactly in leap years |
| Gregorian.Weekday | frontend/src/app/components/calendar/calendar.component.ts:276 | `getDay()` of a date is in 0..6; the count is fixed by `WeekdayAnchors` and advances by one a day by `NextDayWeekday` |
| Gregorian.WeekdayAnchors | frontend/src/app/components/calendar/calendar.component.ts:276 | 1 January 1970 is a Thursday (4), 1 January 2024 a Monday (1), 29 February 2000 a Tuesday (2) |
| Gregorian.NextDayWeekday | frontend/src/app/components/calendar/calendar.component.ts:276 | the next day of a month falls on the next weekday, modulo 7 |
| Gregorian.PreviousMonth | frontend/src/app/components/calendar/calendar.component.ts:339-344 | the month before is one step back on the year × 12 + month line, with month in 0..11 |
| Gregorian.NextMonth | frontend/src/app/components/calendar/calendar.component.ts:346-351 | the month after is one step forward on the same line, with month in 0..11 |
| Gregorian.MonthStepsInvert | frontend/src/app/components/calendar/calendar.component.ts:339-351 | going forward then back (and back then forward) returns to the same month |
| Gregorian.FirstWeekdayOfNextMonth | frontend/src/app/components/calendar/calendar.component.ts:276-318 | the next month starts on the weekday after this month's last day |
| CalendarView.DateKey | frontend/src/app/components/calendar/calendar.component.ts:321-334 | a date read from `YYYY-MM-DD` has month 0..11 and a day within that month |
| CalendarView.StartDay | frontend/src/app/components/calendar/calendar.component.ts:276-280 | the number of leading days of the previous month is (weekday of the 1st + 6) mod 7, from 0 to 6 (weeks start on Monday) |
| CalendarView.FirstMatch | frontend/src/app/components/calendar/calendar.component.ts:321-334 | the search finds the first cell on the appointment's day, and none when no cell is on that day |
| CalendarView.EventsOnMembers | frontend/src/app/components/calendar/calendar.component.ts:321-334 | the events on a day are exactly the appointments whose date is that day |
| CalendarView.PlaceAllKeepsDays | frontend/src/app/components/calendar/calendar.component.ts:321-334 | placing appointments changes no cell's day, month, year or current-month flag |
| CalendarView.PlaceAllEvents | frontend/src/app/components/calendar/calendar.component.ts:321-334 | in a grid of distinct days each cell ends with exactly the appointments on its day, in list order |
| CalendarView.GridCellBlocks | frontend/src/app/components/calendar/calendar.component.ts:276-318 | cell i is a trailing day of the previous month, a day of this month, or a leading day of the next month, by its position |
| CalendarView.BlankGridDistinct | frontend/src/app/components/calendar/calendar.component.ts:276-318 | the 42 cells are 42 different days |
| CalendarView.CalendarGridShape | frontend/src/app/components/calendar/calendar.component.ts:260-337 | the grid has 42 distinct days laid out by position, and each cell holds exactly the appointments on its day |
| CalendarView.BuildCalendar | frontend/src/app/components/calendar/calendar.component.ts:260-337 | the three filling loops and the placement loop produce exactly the grid specification |
| CalendarView.JsRemainder | frontend/src/app/components/calendar/calendar.component.ts:372 | JavaScript `%`: the mathematical remainder for non-negative operands, a value in (-b, 0] for negative ones |
| CalendarView.EndTimeAddsDuration | frontend/src/app/components/calendar/calendar.component.ts:367-375 | the end time is the two-digit hours (start hours × 60 + minutes + duration) div 60 and minutes mod 60, joined by `:`; read back it is start plus duration, minutes 0..59, hours not reduced modulo 24 |
| CalendarView.EndTimeDoesNotWrap | frontend/src/app/components/calendar/calendar.component.ts:367-375 | `23:50` plus 30 minutes is shown as `24:20` |
| CalendarView.BookedBy | frontend/src/app/components/calendar/calendar.component.ts:588-623 | the fallback filter keeps exactly the booked appointments with the user's email |
| CalendarView.BookedByAppend | frontend/src/app/components/calendar/calendar.component.ts:601-603 | the filter keeps the order of the list: filtering a concatenation is the concatenation of the filtered parts |
| CalendarView.BookedByOne | frontend/src/app/components/calendar/calendar.component.ts:601-603 | a single appointment is kept exactly when it is booked under the email |
| CalendarView.CalendarComponent.constructor | frontend/src/app/components/calendar/calendar.component.ts:164-184 | the component starts on today's date with an empty grid, no selection, no appointments and not loading |
| CalendarView.CalendarComponent.GenerateCalendar | frontend/src/app/components/calendar/calendar.component.ts:260-337 | the grid becomes the specification grid of the current month and appointments; nothing else changes |
| CalendarView.CalendarComponent.PreviousMonth | frontend/src/app/components/calendar/calendar.component.ts:339-344 | the date moves to the 1st of the previous month and the grid is regenerated; the appointments, the selection and the loading flag are unchanged |
| CalendarView.CalendarComponent.NextMonth | frontend/src/app/components/calendar/calendar.component.ts:346-351 | the date moves to the 1st of the next month and the grid is regenerated; the appointments, the selection and the loading flag are unchanged |
| CalendarView.CalendarComponent.SelectDay | frontend/src/app/components/calendar/calendar.component.ts:353-365 | the day becomes the selection and its events the selected events; date, grid, appointments and loading flag are unchanged |
| CalendarView.CalendarComponent.FallbackLoadUserAppointments | frontend/src/app/components/calendar/calendar.component.ts:588-623 | with the full list loaded, the user's booked appointments are appended; the service mirror holds the full list (unchanged otherwise); the grid is regenerated; the date, selection and loading flag are unchanged |
| CalendarView.CalendarComponent.LoadUserAppointments | frontend/src/app/components/calendar/calendar.component.ts:556-585 | without a user email nothing is loaded; otherwise the user's appointments are appended (or the fallback runs on failure), then the grid is regenerated; the service mirror changes only when the admin fallback loads the full list; the date, selection and loading flag are unchanged |
| CalendarView.CalendarComponent.LoadAppointments | frontend/src/app/components/calendar/calendar.component.ts:207-258 | the loaded list (empty on failure) is all of the appointments for an admin or without a user; for a patient with an email it is followed by that user's appointments when their request succeeds (the fallback appends nothing for a non-admin); the service mirror is the full list after an admin's successful load and unchanged otherwise; the selection is unchanged; loading ends; the grid is regenerated |
| FreeAppointmentsView.FormatTime | frontend/src/app/components/free-appointments/free-appointments.component.ts:91-93 | the time is shown as stored |
| FreeAppointmentsView.EndClockCarry | frontend/src/app/components/free-appointments/free-appointments.component.ts:95-110 | hours change only when the minutes reach 60; the end is always start plus duration |
| FreeAppointmentsView.EndTimeAddsDuration | frontend/src/app/components/free-appointments/free-appointments.component.ts:95-110 | the end time is the two-digit hours h + (m + duration) div 60 and minutes (m + duration) mod 60, joined by `:`; read back it is start plus duration, minutes 0..59, no wrap at 24:00 |
| FreeAppointmentsView.AgreesWithCalendar | frontend/src/app/components/free-appointments/free-appointments.component.ts:95-110 | where the minutes plus the duration are not negative, this end time equals the calendar's |
| FreeAppointmentsView.FreeAppointmentsComponent.LoadFreeAppointments | frontend/src/app/components/free-appointments/free-appointments.component.ts:43-57 | the list becomes the converted free list, or empty on failure; loading ends |
| FreeAppointmentsView.FreeAppointmentsComponent.SelectAppointment | frontend/src/app/components/free-appointments/free-appointments.component.ts:59-62 | the appointment is selected and the form shown |
| FreeAppointmentsView.FreeAppointmentsComponent.CancelBooking | frontend/src/app/components/free-appointments/free-appointments.component.ts:82-85 | the selection is dropped and the form hidden |
| FreeAppointmentsView.FreeAppointmentsComponent.HandleBooking | frontend/src/app/components/free-appointments/free-appointments.component.ts:64-80 | a successful booking closes the form, reloads the list and replaces the booked record in the service's mirror; a failed one changes nothing |
| Session.RoleOf | frontend/src/app/services/auth.service.ts:208-228 | no saved user is `unknown`; staff or member of `admin` is `admin`; any other user is `patient` (each an iff) |
| Session.AdminRoleImpliesCheckIsAdmin | frontend/src/app/services/auth.service.ts:208-284 | the `admin` role implies checkIsAdmin |
| Session.SuperuserIsAdminWithPatientRole | frontend/src/app/services/auth.service.ts:208-284 | a superuser without staff flag or groups passes checkIsAdmin but has the `patient` role |
| Session.RenewalDelay | frontend/src/app/services/auth.service.ts:230-256 | the renewal fires five minutes before expiry, or at once when less than five minutes remain; never negative |
| Session.RenewedHalfwayThroughTenMinutes | frontend/src/app/services/auth.service.ts:230-256 | a token valid for ten more minutes is renewed after five |
| Session.ClaimsUser | frontend/src/app/services/auth.service.ts:99-141 | the user built at login takes id, username, email (or "") and is_staff from the token and nothing else |
| Session.VerifiedUser | frontend/src/app/services/auth.service.ts:287-319 | the verified user is the server's user with is_staff set when is_admin is |
| Session.VerifiedRole | frontend/src/app/services/auth.service.ts:287-319 | after verification the role is `admin` iff staff, is_admin or the admin group; checkIsAdmin is unchanged by it |
| Session.AuthService.constructor | frontend/src/app/services/auth.service.ts:43-54 | the service starts from storage: no token means logged out, an undecodable token clears storage, a live token arms the renewal timer; an expired token is renewed (new access token stored, timer armed from it) or, without a refresh token or on a failed renewal, the session is cleared |
| Session.AuthService.SetUpTokenExpiration | frontend/src/app/services/auth.service.ts:230-256 | the timer is set to the renewal delay for a truthy, decodable token and left as it was otherwise; nothing else changes |
| Session.AuthService.Logout | frontend/src/app/services/auth.service.ts:143-165 | storage is emptied, the user and role are reset and the timer is cleared |
| Session.AuthService.RefreshToken | frontend/src/app/services/auth.service.ts:167-188 | without a refresh token nothing changes; on success only the access token is replaced and the timer re-armed; on failure the session is logged out |
| Session.AuthService.Login | frontend/src/app/services/auth.service.ts:99-141 | on success both tokens are stored and, for a decodable token, the user from its claims is saved with its role and the timer armed; on failure nothing changes |
| Session.AuthService.VerifyCurrentUser | frontend/src/app/services/auth.service.ts:287-319 | on success the verified user and its role are saved; a 401 logs out; other errors change nothing |
| Session.AuthService.InitAuthFromStorage | frontend/src/app/services/auth.service.ts:69-97 | a live token arms the timer; an expired one is renewed: only the access token changes and the timer is re-armed from the new token, or the session is logged out when renewal is impossible or fails; an undecodable one clears storage |
| RouteGuard.AuthGuard | frontend/src/app/services/auth.guard.ts:6-51 | no token redirects to /login; no required role allows; the admin role requires checkIsAdmin and the patient role its negation; a refused user goes to /calendar or /free-appointments by checkIsAdmin |
| RouteGuard.RoleAreasPartitionUsers | frontend/src/app/services/auth.guard.ts:28-36 | with a token, a user enters exactly one of the admin and patient areas |
| RouteGuard.SuperuserEntersAdminArea | frontend/src/app/services/auth.guard.ts:28-47 | a bare superuser enters the admin area and is refused the patient area |
| BearerInterceptor.Intercept | frontend/src/app/services/auth.interceptor.ts:5-31 | URL and body are never changed; `/token/` requests and requests without a token pass unchanged; otherwise the Authorization header (of any spelling, names being case-insensitive) is `Bearer <token>` |
| BearerInterceptor.OnlyAuthorizationChanges | frontend/src/app/services/auth.interceptor.ts:17-26 | every header other than Authorization, in any spelling, is kept |
| BearerInterceptor.RenewalPassesThrough | frontend/src/app/services/auth.interceptor.ts:12-14 | a token renewal request is sent without a bearer token |
| Text.ContainsIffOccurs | frontend/src/app/services/auth.interceptor.ts:12 | `includes` holds iff the text occurs at some position |
| Text.Trim | frontend/src/app/components/booking-form/booking-form.component.ts:49 | `trim` removes leading and trailing ECMAScript white space and line terminators (ASCII, every Unicode space separator, the byte order mark, U+2028 and U+2029) and nothing else |
| Text.ClockFieldsOfRendered | frontend/src/app/components/calendar/calendar.component.ts:368 | splitting `HH:MM` at the colon and reading both parts as numbers gives back the two numbers |
| Text.Utf16Length | frontend/src/app/components/booking-form/booking-form.component.ts:62 | `length` counts UTF-16 code units: between the number of characters and twice it, and equal to it when no character lies above U+FFFF |
| BookingForm.AstralNameAccepted | frontend/src/app/components/booking-form/booking-form.component.ts:62 | `minLength(3)` accepts a two-character name with a character above U+FFFF and refuses `ab` |
| BookingForm.IndexOf | frontend/src/app/components/booking-form/booking-form.component.ts:63 | the first position of a character, or none when it does not occur |
| BookingForm.EmailMatchesIffPattern | frontend/src/app/components/booking-form/booking-form.component.ts:63 | the checking procedure accepts exactly the strings matching the anchored email pattern |
| BookingForm.EmailPatternRejectsUpperCase | frontend/src/app/components/booking-form/booking-form.component.ts:63 | no string with an upper-case letter matches the pattern |
| BookingForm.FivePhoneDigitsRejected | frontend/src/app/components/booking-form/booking-form.component.ts:64 | five digits are refused and six accepted |
| BookingForm.PrefillName | frontend/src/app/components/booking-form/booking-form.component.ts:41-52 | the prefilled name is `first last` trimmed when a first name is set, else empty |
| BookingForm.BookingFormComponent.NgOnInit | frontend/src/app/components/booking-form/booking-form.component.ts:41-52 | a user with an email has email and name prefilled; otherwise the form is empty |
| BookingForm.BookingFormComponent.ResetForm | frontend/src/app/components/booking-form/booking-form.component.ts:68-82 | the controls are cleared except the prefill, and the error and submitted flags are reset |
| BookingForm.BookingFormComponent.OnAppointmentChange | frontend/src/app/components/booking-form/booking-form.component.ts:54-58 | a new non-null appointment resets the form (error and submitted cleared, phone empty, email and name prefilled for a user with an email, else empty); a null one leaves every control and flag alone |
| BookingForm.BookingFormComponent.OnSubmit | frontend/src/app/components/booking-form/booking-form.component.ts:84-103 | an invalid form (name shorter than three UTF-16 code units, email or phone not matching its pattern) or an appointment without a (non-zero) id sets the error and emits nothing; otherwise one request with the id and the three values is emitted |
| AppointmentDialog.IsEditMode | frontend/src/app/components/appointment-dialog/appointment-dialog.component.ts:40 | the form is editable in every mode except view |
| AppointmentDialog.TitleDeterminesMode | frontend/src/app/components/appointment-dialog/appointment-dialog.component.ts:41-42 | the three modes have three different titles |
| AppointmentDialog.InitialForm | frontend/src/app/components/appointment-dialog/appointment-dialog.component.ts:44-51 | each control takes the appointment's value, or its default when the value is falsy |
| AppointmentDialog.StartTimeSound | frontend/src/app/components/appointment-dialog/appointment-dialog.component.ts:48 | a start time the pattern accepts reads as hours 0..23 and minutes 0..59 |
| AppointmentDialog.StartTimeComplete | frontend/src/app/components/appointment-dialog/appointment-dialog.component.ts:48 | every `HH:MM` from 00:00 to 23:59 is accepted |
| AppointmentDialog.OutOfRangeStartTimesRejected | frontend/src/app/components/appointment-dialog/appointment-dialog.component.ts:48 | `24:00` and `12:60` are refused; `9:05` and `23:59` are accepted |
| AppointmentDialog.OnSubmit | frontend/src/app/components/appointment-dialog/appointment-dialog.component.ts:59-80 | the dialog closes with an appointment iff the form is valid (title and date given, start time matching the pattern, duration 15..240; never in view mode); the form's six values override the original's |
| AppointmentDialog.SubmittedEndTime | frontend/src/app/components/appointment-dialog/appointment-dialog.component.ts:48-49 | a submitted appointment has a numeric end time equal to start plus duration |
| TerminDialog.FormatDateRoundTrip | frontend/src/app/components/termin-dialog/termin-dialog.component.ts:51-56 | a formatted date of a four-digit year is 10 characters and reads back as the same day |
| TerminDialog.Mode | frontend/src/app/components/termin-dialog/termin-dialog.component.ts:35 | an empty or missing mode is `create` |
| TerminDialog.InitialForm | frontend/src/app/components/termin-dialog/termin-dialog.component.ts:37-48 | in edit mode the slot's values fill the form as they are (a null description stays null); otherwise the defaults, with preset date and time when given |
| TerminDialog.OnSubmit | frontend/src/app/components/termin-dialog/termin-dialog.component.ts:58-62 | the dialog closes with the form's values iff the form is valid |
| TerminDialog.DefaultsSubmit | frontend/src/app/components/termin-dialog/termin-dialog.component.ts:37-62 | the untouched default form can be submitted |
| TerminDialog.DurationLimitsDiffer | frontend/src/app/components/termin-dialog/termin-dialog.component.ts:42 | this dialog accepts 241 minutes, which the appointment dialog refuses |
| TerminModel.StatusValue | backend/terminverwaltung/models.py:5-8 | the two status choices are stored as `frei` and `gebucht` |
| TerminModel.ParseStatus | backend/terminverwaltung/models.py:5-8 | only `frei` and `gebucht` are choices |
| TerminModel.StatusRoundTrip | backend/terminverwaltung/models.py:5-8 | each choice reads back from its stored value |
| TerminModel.NewTermin | backend/terminverwaltung/models.py:10-20 | a new slot has 30 minutes, status `frei`, and no description or patient data |
| TerminModel.StrLayout | backend/terminverwaltung/models.py:22-23 | the text form is the 10-character date, a space, the 8-character time, ` - `, then exactly the title |
| Permissions.PatientIsNotAdmin | backend/terminverwaltung/permissions.py:7-22 | a logged-in user is a patient iff not an admin; the anonymous user is neither |
| Permissions.SuperuserAloneIsNotAdmin | backend/terminverwaltung/permissions.py:7-11 | the superuser flag alone does not grant IsAdmin |
| Permissions.IsOwnerOrAdmin | backend/terminverwaltung/permissions.py:28-32 | for a logged-in user the check passes iff admin or the slot's patient email is the user's; for the anonymous user it is a server error |
| Permissions.PatientPassesOnlyForOwnSlot | backend/terminverwaltung/permissions.py:28-32 | a patient passes exactly for slots booked under their own email |
| TerminViews.GetPermissions | backend/terminverwaltung/views.py:43-65 | IsAdmin guards exactly create, update, partial_update and destroy; IsOwnerOrAdmin exactly retrieve; IsAuthenticated all else |
| TerminViews.CheckPermissions | backend/terminverwaltung/views.py:43-65 | a request passes iff every class grants it; a refusal is 401 without and 403 with credentials |
| TerminViews.AccessByAction | backend/terminverwaltung/views.py:47-61 | writes pass iff IsAdmin; retrieve always reaches the object check; every other action passes iff logged in |
| TerminViews.PatientsCannotWrite | backend/terminverwaltung/views.py:47-49 | a patient's write is refused with 403 |
| TerminViews.Where | backend/terminverwaltung/views.py:67-113 | a query keeps exactly the rows its condition accepts |
| TerminViews.IndexOfId | backend/terminverwaltung/views.py:121 | the lookup by primary key finds a row with that key, or reports that none has it |
| TerminViews.Booked | backend/terminverwaltung/views.py:131-134 | the booked row has the requester's email, the body's name and phone, status `gebucht`, and every other field unchanged |
| TerminViews.Book | backend/terminverwaltung/views.py:115-138 | 401 without credentials, 404 for an unknown key, 400 for a slot that is not free (table unchanged); a logged-in user booking a free slot always succeeds, and only that row is booked |
| TerminViews.BookingKeepsTable | backend/terminverwaltung/views.py:115-138 | booking changes no slot and no key, and keeps both uniqueness invariants |
| TerminViews.NoDoubleBooking | backend/terminverwaltung/views.py:124-128 | once a slot is booked, any further booking of it gets 400 and changes nothing |
| TerminViews.Saved | backend/terminverwaltung/models.py:14-18 | a created row takes its defaults (30 minutes, `frei`) for absent fields |
| TerminViews.Create | backend/terminverwaltung/views.py:140-149 | a non-admin is refused; an occupied (datum, uhrzeit) gets 400; otherwise the row is appended under the next key |
| TerminViews.CreateKeepsTable | backend/terminverwaltung/models.py:25-26 | creating keeps (datum, uhrzeit) unique and keys unique |
| TerminViews.CurrentUserInfo | backend/terminverwaltung/views.py:17-33 | a logged-in user gets their record with `is_admin` equal to IsAdmin; without credentials 401 |
| TerminViews.ClientRoleFollowsServer | backend/terminverwaltung/views.py:32 | after verification the client's role is `admin` iff the server's IsAdmin holds |
| TerminViews.SuperuserIsAdminOnlyToTheClient | backend/terminverwaltung/views.py:47-49 | a bare superuser passes the client's checkIsAdmin, has the patient role, and is refused every write by the server |
| TerminViews.TerminViewSet.List | backend/terminverwaltung/views.py:67-82 | an admin gets every row, anyone else the rows booked under their email, both narrowed by the datum and status filters; without credentials 401 |
| TerminViews.TerminViewSet.Verfuegbar | backend/terminverwaltung/views.py:84-91 | exactly the rows with status `frei` |
| TerminViews.TerminViewSet.Benutzer | backend/terminverwaltung/views.py:93-113 | 401 without credentials; 403 unless admin or the requester's own email; an admin or the owner always gets exactly the rows booked under that email |
| TerminViews.TerminViewSet.Retrieve | backend/terminverwaltung/views.py:59-61 | 404 for an unknown key; the row iff admin or owner; 403 for any other logged-in user; 500 without credentials |
| TerminViews.TerminViewSet.Buchen | backend/terminverwaltung/views.py:115-138 | the answer and the new table are those of `Book`; slot and key uniqueness are kept |
| TerminViews.TerminViewSet.CreateTermin | backend/terminverwaltung/views.py:140-149 | the answer and the new table are those of `Create`; the next key advances only on success; uniqueness is kept |

## Left out

- Time zones, the local clock and JavaScript `Date` rollover are left
  out. Dates are proleptic Gregorian triples, and `new Date(...)` of an
  invalid date string is not modelled.
- Locale formatting is left out: the German month and day headings of the
  calendar and the display formats in templates.
- JavaScript `Number()` is modelled only for digit strings and the empty
  string. Other numeric syntaxes (signs, decimals, exponents,
  surrounding spaces) read as NaN in the model.
- BookingForm.BookingFormComponent.OnSubmit: Angular's built-in
  `Validators.email` runs next to the project's own pattern. It is a
  library validator and `BookingForm.EmailValid` does not model it, so an
  email that only it refuses, such as `a..b@x.com`, is emitted in the
  model.
- The JSON round trip of the saved user through browser storage is
  assumed to give back the same user.
- The internals of `jwtDecode` are not modelled. The decoder is a function
  parameter.
- The timer callback is the renewal itself (`Session.AuthService.RefreshToken`).
  Scheduling is not modelled.
- Session.AuthService.Login: the `verifyCurrentUser` request that login
  starts is modelled as the separate later transition `VerifyCurrentUser`.
- Router navigation, snackbars, dialogs opening and closing, and console
  output are left out. They are side effects without state that the
  model keeps.
- AppointmentDialog.OnSubmit: the date control holds a JavaScript `Date`
  and is submitted through `toISOString`. The model keeps the
  `YYYY-MM-DD` string, which that conversion returns unchanged only when
  no time-zone shift crosses midnight.
- The calendar's three-second fallback to test data (`loadTestData`) is
  left out. It is demonstration data, not scheduling logic.
- Server-side:
  - concurrency, transactions and the database are modelled as one
    sequential in-memory table;
  - the `erstellt_am` and `aktualisiert_am` timestamps come from the clock
    and are left out;
  - the order of query results is the table order.
- Serializer validation of field types, lengths and choices is assumed
  to have passed before `perform_create`. `TerminInput` is an
  already-validated record. Its unique-together validator answers 400,
  the same as `perform_create`.
- The `update`, `partial_update` and `destroy` handlers are the
  framework's defaults. Only their permission class is modelled
  (`TerminViews.AccessByAction`).
- TerminViews.TerminViewSet.List: the `datum` and `status` query values
  are assumed to be a valid date and a valid choice. The query filter
  answers 400 for any other value, and that error path is not modelled.
  The same filter also narrows `get_object` in `retrieve` and `buchen`,
  so there a `status` that does not match the row gives 404. Those two
  members are modelled without query parameters.
- URL decoding in `benutzer` is left out. The email parameter is the
  decoded one.
- Request bodies in `buchen` are a name and a phone, each possibly absent.
  The 20-character limit on `patient_telefon` is not checked on save.
- Microseconds of `uhrzeit` are left out, so the text form's time is
  always `HH:MM:SS`.
- `termine.service.ts` and the `kalender`, `buchungs-formular` and
  `login` components are not part of this model.
