/** The call screen's participant side: the `MeetingView` presence message,
    the `ParticipantList` choice of what to render, and the doctor profile
    that `ParticipantList` and `ParticipantView` each fetch on mount. */
module Presence {
  import opened CallEffects

  const DoctorJoinedMessage := "Doctor has joined the call."

  /** The presence rule: the message is set exactly when the roster holds two
      entries, and cleared for every other size (0, 1, 3 or more). */
  function PresenceMessage(participantCount: nat): (m: string)
    ensures m == DoctorJoinedMessage <==> participantCount == 2
    ensures m != DoctorJoinedMessage ==> m == ""
  {
    if participantCount == 2 then DoctorJoinedMessage else ""
  }

  /** What `ParticipantList` renders: the first roster entry's view, or its own
      "Tap to call" panel while the roster is empty. */
  datatype RosterView = ShowParticipant(participantId: string) | TapToCall

  function RosterViewFor(participants: seq<string>): (v: RosterView)
    ensures v.TapToCall? <==> |participants| == 0
    ensures v.ShowParticipant? ==> v.participantId == participants[0]
  {
    if |participants| > 0 then ShowParticipant(participants[0]) else TapToCall
  }

  /** The `MeetingView` component.  Its roster is the key list of the meeting
      SDK's participant map, pushed in through `OnParticipantsChanged`. */
  class MeetingView {
    const meetingId: string
    const appointmentId: Option<string>
    var participants: seq<string>
    var participantJoinedMessage: string
    var trace: seq<Effect>

    ghost predicate Valid()
      reads this
    {
      participantJoinedMessage == PresenceMessage(|participants|)
    }

    /** Whether the message line is rendered (a truthy string). */
    function MessageShown(): bool
      reads this
    {
      participantJoinedMessage != ""
    }

    function View(): RosterView
      reads this
    {
      RosterViewFor(participants)
    }

    /** Mounting runs both effects once: `fetchMeetingId` reads the
        appointment only for a truthy `appointmentId` (the call screen always
        passes null, so no read happens), and the presence rule is applied to
        the initial roster. */
    constructor (meetingId: string, appointmentId: Option<string>, participants: seq<string>)
      ensures this.meetingId == meetingId && this.appointmentId == appointmentId
      ensures this.participants == participants
      ensures Valid() && (MessageShown() <==> |participants| == 2)
      ensures trace == if Truthy(appointmentId) then [SelectAppointmentMeetingId(appointmentId.value)] else []
    {
      this.meetingId := meetingId;
      this.appointmentId := appointmentId;
      this.participants := participants;
      participantJoinedMessage := "";
      trace := [];
      if Truthy(appointmentId) {
        trace := trace + [SelectAppointmentMeetingId(appointmentId.value)];
      }
      participantJoinedMessage := PresenceMessage(|participants|);
    }

    /** The presence effect, re-run after every roster change. */
    method OnParticipantsChanged(participants: seq<string>)
      modifies this
      ensures this.participants == participants && trace == old(trace)
      ensures Valid()
      ensures participantJoinedMessage == DoctorJoinedMessage <==> |participants| == 2
      ensures MessageShown() <==> |participants| == 2
    {
      this.participants := participants;
      if |participants| == 2 {
        participantJoinedMessage := DoctorJoinedMessage;
      } else {
        participantJoinedMessage := "";
      }
    }
  }

  datatype Doctor = Doctor(id: string, firstName: string, lastName: string, image: string, createdAt: string)

  /** How the `doctors` query ended: a response carrying `data` (or null) and
      an `error` flag (both may be present), or a thrown exception. */
  datatype FetchOutcome = Fetched(data: Option<Doctor>, failed: bool) | FetchThrew

  const FetchFailedText := "could not fetch description articles in database"
  const UnexpectedErrorText := "An unexpected error occurred"

  /** The `FetchDoctor` and `FetchError` states of one component. */
  datatype DoctorPanel = DoctorPanel(doctor: Option<Doctor>, error: Option<string>)

  const EmptyPanel := DoctorPanel(None, None)

  /** The handling of one fetch result: data sets the doctor and clears the
      error; an error clears the doctor and sets the failure text, winning
      over data; an exception sets its own text and keeps the doctor. */
  function AfterFetch(p: DoctorPanel, outcome: FetchOutcome): (q: DoctorPanel)
    ensures outcome.Fetched? && outcome.failed ==> q == DoctorPanel(None, Some(FetchFailedText))
    ensures outcome.Fetched? && !outcome.failed && outcome.data.Some? ==> q == DoctorPanel(outcome.data, None)
    ensures outcome == Fetched(None, false) ==> q == p
    ensures outcome.FetchThrew? ==> q.doctor == p.doctor && q.error == Some(UnexpectedErrorText)
  {
    match outcome
    case FetchThrew => p.(error := Some(UnexpectedErrorText))
    case Fetched(data, failed) =>
      var afterData := if data.Some? then DoctorPanel(data, None) else p;
      if failed then DoctorPanel(None, Some(FetchFailedText)) else afterData
  }

  /** The fetch runs once per mount, from an empty panel: the profile and an
      error text are never shown together, and the profile is shown exactly
      when data arrived without an error. */
  lemma FetchOnMount(outcome: FetchOutcome)
    ensures var q := AfterFetch(EmptyPanel, outcome);
      !(q.doctor.Some? && q.error.Some?)
      && (q.doctor.Some? <==> outcome.Fetched? && outcome.data.Some? && !outcome.failed)
      && (q.error.Some? <==> outcome.FetchThrew? || outcome.failed)
  {
  }

  /** The profile state of `ParticipantView` and of `ParticipantList`, which
      carry identical copies of `FetchDoctors`.  The query is keyed by the
      route's `id`, not by the participant being shown. */
  class DoctorCard {
    const id: string
    var doctor: Option<Doctor>
    var error: Option<string>
    var trace: seq<Effect>

    function Panel(): DoctorPanel
      reads this
    {
      DoctorPanel(doctor, error)
    }

    constructor (id: string)
      ensures this.id == id && Panel() == EmptyPanel && trace == []
    {
      this.id := id;
      doctor := None;
      error := None;
      trace := [];
    }

    method FetchDoctors(outcome: FetchOutcome)
      modifies this
      ensures Panel() == AfterFetch(old(Panel()), outcome)
      ensures trace == old(trace) + [SelectDoctor(id)]
    {
      trace := trace + [SelectDoctor(id)];
      match outcome
      case FetchThrew =>
        error := Some(UnexpectedErrorText);
      case Fetched(data, failed) =>
        if data.Some? {
          doctor := data;
          error := None;
        }
        if failed {
          doctor := None;
          error := Some(FetchFailedText);
        }
    }
  }
}
