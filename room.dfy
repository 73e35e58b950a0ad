/** The `VoiceCall` component: resolving the call room (`getMeetingId`),
    recording the room on the appointment, and choosing between the join
    screen and the call screen. */
module RoomScreen {
  import opened CallEffects

  /** The configuration handed to the meeting provider. */
  datatype MeetingConfig = MeetingConfig(meetingId: string, micEnabled: bool, webcamEnabled: bool, name: string)

  datatype Screen = JoinScreen | CallScreen(config: MeetingConfig)

  /** The render choice: the call screen, with its fixed configuration, is
      shown exactly when `meetingId` is truthy. */
  function ScreenFor(meetingId: Option<string>): (s: Screen)
    ensures s.CallScreen? <==> Truthy(meetingId)
    ensures s.CallScreen? ==> s.config == MeetingConfig(meetingId.value, true, false, "Patient")
  {
    if Truthy(meetingId) then CallScreen(MeetingConfig(meetingId.value, true, false, "Patient"))
    else JoinScreen
  }

  /** What the room-creation request did: it resolved with the response's
      `roomId` (`None` when the field is missing), or it rejected. */
  datatype CreateOutcome = RoomCreated(roomId: Option<string>) | CreateRejected

  /** The screen's room state and the calls it has issued. */
  datatype Session = Session(meetingId: Option<string>, trace: seq<Effect>)

  /** `getMeetingId(arg)`: with no argument a room is requested; any string
      argument, the empty one included, is taken verbatim.  A rejected request
      ends the call before `meetingId` is set.  The appointment's meetingId
      column is written only when the new id is truthy. */
  function GetMeetingIdStep(s: Session, appointment: string, arg: Option<string>, created: CreateOutcome): (r: Session)
    ensures |r.trace| >= |s.trace| && r.trace[..|s.trace|] == s.trace
    ensures arg.Some? ==> r.meetingId == arg
    ensures arg.None? && created.RoomCreated? ==> r.meetingId == created.roomId
    ensures arg.None? && created.CreateRejected? ==> r == Session(s.meetingId, s.trace + [CreateMeeting])
    ensures CreateMeeting in r.trace[|s.trace|..] <==> arg.None?
    ensures forall i :: |s.trace| <= i < |r.trace| && r.trace[i].UpdateAppointmentMeetingId? ==>
              Truthy(r.meetingId) && r.trace[i] == UpdateAppointmentMeetingId(appointment, r.meetingId.value)
    ensures (arg.Some? || created.RoomCreated?) && Truthy(r.meetingId) ==>
              UpdateAppointmentMeetingId(appointment, r.meetingId.value) in r.trace[|s.trace|..]
  {
    if arg.None? && created.CreateRejected? then
      Session(s.meetingId, s.trace + [CreateMeeting])
    else
      var newId := if arg.Some? then arg else created.roomId;
      var asked := if arg.None? then [CreateMeeting] else [];
      var written := if Truthy(newId) then [UpdateAppointmentMeetingId(appointment, newId.value)] else [];
      assert (s.trace + asked + written)[|s.trace|..] == asked + written;
      Session(newId, s.trace + asked + written)
  }

  /** Among the issued calls, no write of the appointment's meetingId column
      is issued while the screen's id is falsy, every issued write carries the
      screen's id, and exactly one has been issued once that id is truthy.
      Whether a write succeeded is not tracked: its outcome is only logged. */
  ghost predicate Consistent(s: Session, appointment: string)
  {
    (forall i :: 0 <= i < |s.trace| && s.trace[i].UpdateAppointmentMeetingId? ==>
       Truthy(s.meetingId) && s.trace[i] == UpdateAppointmentMeetingId(appointment, s.meetingId.value))
    && (Truthy(s.meetingId) ==>
          multiset(s.trace)[UpdateAppointmentMeetingId(appointment, s.meetingId.value)] == 1)
  }

  lemma GetMeetingIdKeepsConsistent(s: Session, appointment: string, arg: Option<string>, created: CreateOutcome)
    requires Consistent(s, appointment) && !Truthy(s.meetingId)
    ensures Consistent(GetMeetingIdStep(s, appointment, arg, created), appointment)
  {
  }

  /** A press on one of the join screen's two buttons: "Create Room" calls
      `getMeetingId()`, "Join the Room" calls `getMeetingId(text)` with the
      text field's content (initially ""). */
  datatype JoinPress = CreateRoom(created: CreateOutcome) | JoinRoom(text: string)

  /** A press lands only while the join screen is rendered; once the call
      screen is up the buttons are gone and nothing happens.  Each press is
      handled to completion, awaited request included, before the next one. */
  function Press(s: Session, appointment: string, p: JoinPress): (r: Session)
    ensures |r.trace| >= |s.trace| && r.trace[..|s.trace|] == s.trace
    ensures ScreenFor(s.meetingId).CallScreen? ==> r == s
    ensures ScreenFor(s.meetingId).JoinScreen? && p.CreateRoom? ==>
              |r.trace| > |s.trace| && r.trace[|s.trace|] == CreateMeeting
    ensures ScreenFor(s.meetingId).JoinScreen? && p.JoinRoom? ==>
              r.meetingId == Some(p.text) && CreateMeeting !in r.trace[|s.trace|..]
  {
    if ScreenFor(s.meetingId).CallScreen? then s
    else match p
      case CreateRoom(created) => GetMeetingIdStep(s, appointment, None, created)
      // no room is requested, so the creation outcome is never consulted
      case JoinRoom(text) => GetMeetingIdStep(s, appointment, Some(text), CreateRejected)
  }

  function AfterPresses(s: Session, appointment: string, ps: seq<JoinPress>): Session
    decreases |ps|
  {
    if ps == [] then s else AfterPresses(Press(s, appointment, ps[0]), appointment, ps[1..])
  }

  /** Once the call screen is shown, no press of the join screen changes anything. */
  lemma {:induction false} CallScreenIsFinal(s: Session, appointment: string, ps: seq<JoinPress>)
    requires Truthy(s.meetingId)
    ensures AfterPresses(s, appointment, ps) == s
    decreases |ps|
  {
    if ps != [] {
      CallScreenIsFinal(s, appointment, ps[1..]);
    }
  }

  /** With presses handled one at a time, the room id, once truthy, never
      changes again. */
  lemma {:induction false} RoomFixedOnceSet(s: Session, appointment: string, ps: seq<JoinPress>, qs: seq<JoinPress>)
    requires Truthy(AfterPresses(s, appointment, ps).meetingId)
    ensures AfterPresses(s, appointment, ps + qs).meetingId == AfterPresses(s, appointment, ps).meetingId
    decreases |ps|
  {
    if ps == [] {
      assert ps + qs == qs;
      CallScreenIsFinal(s, appointment, qs);
    } else {
      assert (ps + qs)[0] == ps[0] && (ps + qs)[1..] == ps[1..] + qs;
      RoomFixedOnceSet(Press(s, appointment, ps[0]), appointment, ps[1..], qs);
    }
  }

  /** Joining with typed codes, even empty ones, never requests a new room. */
  lemma {:induction false} JoinCodesNeverCreate(s: Session, appointment: string, ps: seq<JoinPress>)
    requires forall i :: 0 <= i < |ps| ==> ps[i].JoinRoom?
    ensures multiset(AfterPresses(s, appointment, ps).trace)[CreateMeeting] == multiset(s.trace)[CreateMeeting]
    decreases |ps|
  {
    if ps != [] {
      var t := Press(s, appointment, ps[0]);
      assert multiset(t.trace)[CreateMeeting] == multiset(s.trace)[CreateMeeting];
      JoinCodesNeverCreate(t, appointment, ps[1..]);
    }
  }

  /** With presses handled one at a time, every history keeps the issued
      appointment writes in step with the screen's id. */
  lemma {:induction false} PressesKeepConsistent(s: Session, appointment: string, ps: seq<JoinPress>)
    requires Consistent(s, appointment)
    ensures Consistent(AfterPresses(s, appointment, ps), appointment)
    decreases |ps|
  {
    if ps != [] {
      if !Truthy(s.meetingId) {
        match ps[0]
        case CreateRoom(created) => GetMeetingIdKeepsConsistent(s, appointment, None, created);
        case JoinRoom(text) => GetMeetingIdKeepsConsistent(s, appointment, Some(text), CreateRejected);
      }
      PressesKeepConsistent(Press(s, appointment, ps[0]), appointment, ps[1..]);
    }
  }

  /** The `VoiceCall` component's state: `meetingId` (initially null) and the
      calls it has issued.  `AppointmentID` comes from the route. */
  class VoiceCall {
    const appointmentId: string
    var meetingId: Option<string>
    var trace: seq<Effect>

    function State(): Session
      reads this
    {
      Session(meetingId, trace)
    }

    ghost predicate Valid()
      reads this
    {
      Consistent(State(), appointmentId)
    }

    function Screen(): Screen
      reads this
    {
      ScreenFor(meetingId)
    }

    constructor (appointmentId: string)
      ensures this.appointmentId == appointmentId
      ensures meetingId == None && trace == []
      ensures Valid() && Screen() == JoinScreen
    {
      this.appointmentId := appointmentId;
      meetingId := None;
      trace := [];
    }

    /** `getMeetingId`, reachable only from the join screen.  `created` is what
        the room-creation request would do and `write` how the backend write
        ends; the latter is only logged, so nothing depends on it. */
    method GetMeetingId(arg: Option<string>, created: CreateOutcome, write: WriteOutcome)
      requires Valid() && Screen() == JoinScreen
      modifies this
      ensures Valid()
      ensures State() == GetMeetingIdStep(old(State()), appointmentId, arg, created)
      ensures arg.Some? ==> meetingId == arg
      ensures arg.None? ==> meetingId == (if created.RoomCreated? then created.roomId else old(meetingId))
      ensures trace == old(trace) + (if arg.None? then [CreateMeeting] else [])
                        + (if Truthy(meetingId) then [UpdateAppointmentMeetingId(appointmentId, meetingId.value)] else [])
    {
      ghost var after := GetMeetingIdStep(State(), appointmentId, arg, created);
      GetMeetingIdKeepsConsistent(State(), appointmentId, arg, created);
      var newMeetingId: Option<string>;
      if arg.None? {
        trace := trace + [CreateMeeting];
        match created
        case CreateRejected =>
          // the awaited request throws out of getMeetingId before meetingId is set
          assert State() == after;
          return;
        case RoomCreated(roomId) => newMeetingId := roomId;
      } else {
        newMeetingId := arg;
      }
      meetingId := newMeetingId;
      if Truthy(newMeetingId) {
        trace := trace + [UpdateAppointmentMeetingId(appointmentId, newMeetingId.value)];
      }
      assert State() == after;
    }
  }
}
