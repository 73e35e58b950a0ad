/** Values shared by the components of the voice-call screen: optional values,
    the outcome of a backend write, and the calls the screen makes into the
    meeting SDK, the backend and the router, recorded as effects in the order
    they are issued. */
module CallEffects {

  datatype Option<+T> = None | Some(value: T)

  /** JavaScript truthiness of a `string | null | undefined` value: `None`
      stands for null or undefined, and the empty string is falsy. */
  predicate Truthy(s: Option<string>)
  {
    s.Some? && s.value != ""
  }

  /** How an awaited backend `update(...).eq("id", ...)` ended: without an
      error, with an `error` in the response, or by throwing. */
  datatype WriteOutcome = WriteOk | WriteError | WriteThrew

  /** One call out of the screen. */
  datatype Effect =
    | CreateMeeting                                       // POST to the room-creation endpoint
    | UpdateAppointmentMeetingId(appointment: string, meetingId: string)
    | SelectAppointmentMeetingId(appointment: string)
    | SelectDoctor(id: string)
    | Join
    | Leave
    | ToggleMic
    | UpdateAppointmentStatus(appointment: string, status: string)
    | Navigate(path: string, id: string)

  const CompletedStatus := "Completed"
  const SessionEndedPath := "(app)/Appointments/VoiceCallAppointment/SessionEnded"
}
