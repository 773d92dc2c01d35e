/** The client's appointment records: a slot as the views and the mirror hold
    it, and the request that books it. */
module AppointmentModel {
  import opened Wrappers

  /** The two states of a slot, `'free'` and `'booked'`. */
  datatype Status = Free | Booked

  /** A slot. `id` is absent until the server has created the record; `date`
      is `YYYY-MM-DD`, `startTime` is `HH:MM`, `duration` is in minutes. The
      optional text fields are `None` when the property is missing. */
  datatype Appointment = Appointment(
    id: Option<int>,
    title: string,
    description: Option<string>,
    date: string,
    startTime: string,
    duration: int,
    patientName: Option<string>,
    patientEmail: Option<string>,
    patientPhone: Option<string>,
    status: Status)

  /** What the booking form emits: the slot to book and the three patient
      fields, all mandatory. */
  datatype AppointmentBookingRequest = AppointmentBookingRequest(
    appointmentId: int,
    patientName: string,
    patientEmail: string,
    patientPhone: string)
}
