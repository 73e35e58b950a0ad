/** The `ControlsContainer` component: the one-shot join button, the mic
    toggle and the hang-up button. */
module CallControls {
  import opened CallEffects

  /** The component's `useState` hooks and the calls it has issued. */
  datatype ControlsState = ControlsState(joinDisabled: bool, micOn: bool, loading: bool, trace: seq<Effect>)

  /** Join enabled, mic on, not loading, nothing issued. */
  const Mounted := ControlsState(false, true, false, [])

  /** A press on one of the three buttons; a hang-up carries how the status
      update will end. */
  datatype ControlPress = JoinButton | MicButton | HangUpButton(update: WriteOutcome)

  /** What one hang-up issues, in order: leave, the status update keyed by the
      appointment, and navigation to the session-ended screen with `id`. */
  function HangUpEffects(appointment: string, record: string): seq<Effect>
  {
    [Leave, UpdateAppointmentStatus(appointment, CompletedStatus), Navigate(SessionEndedPath, record)]
  }

  /** One press.  A disabled join button ignores presses; nothing guards the
      hang-up button. */
  function Step(s: ControlsState, p: ControlPress, appointment: string, record: string): (t: ControlsState)
    ensures p == JoinButton ==>
              t.joinDisabled && t.micOn == s.micOn && t.loading == s.loading
              && t.trace == s.trace + (if s.joinDisabled then [] else [Join])
    ensures p == MicButton ==>
              t.micOn != s.micOn && t.joinDisabled == s.joinDisabled && t.loading == s.loading
              && t.trace == s.trace + [ToggleMic]
    ensures p.HangUpButton? ==>
              t.joinDisabled == s.joinDisabled && t.micOn == s.micOn
              && (!t.loading <==> p.update == WriteOk)
              && t.trace == s.trace + [Leave, UpdateAppointmentStatus(appointment, CompletedStatus),
                                       Navigate(SessionEndedPath, record)]
  {
    match p
    case JoinButton =>
      if s.joinDisabled then s else s.(joinDisabled := true, trace := s.trace + [Join])
    case MicButton =>
      s.(micOn := !s.micOn, trace := s.trace + [ToggleMic])
    case HangUpButton(update) =>
      s.(loading := update != WriteOk, trace := s.trace + HangUpEffects(appointment, record))
  }

  function Run(s: ControlsState, ps: seq<ControlPress>, appointment: string, record: string): ControlsState
    decreases |ps|
  {
    if ps == [] then s else Run(Step(s, ps[0], appointment, record), ps[1..], appointment, record)
  }

  function HangUps(ps: seq<ControlPress>): nat
  {
    if ps == [] then 0 else (if ps[0].HangUpButton? then 1 else 0) + HangUps(ps[1..])
  }

  /** The join button ends disabled exactly when it started so or was pressed,
      and `join` is issued once more exactly when it was enabled and pressed. */
  lemma {:induction false} JoinButtonOneShot(s: ControlsState, ps: seq<ControlPress>, appointment: string, record: string)
    ensures Run(s, ps, appointment, record).joinDisabled == (s.joinDisabled || JoinButton in ps)
    ensures multiset(Run(s, ps, appointment, record).trace)[Join]
            == multiset(s.trace)[Join] + (if !s.joinDisabled && JoinButton in ps then 1 else 0)
    decreases |ps|
  {
    if ps != [] {
      var t := Step(s, ps[0], appointment, record);
      JoinButtonOneShot(t, ps[1..], appointment, record);
      assert ps == [ps[0]] + ps[1..];
      assert JoinButton in ps <==> ps[0] == JoinButton || JoinButton in ps[1..];
      if ps[0] != JoinButton {
        assert multiset(t.trace)[Join] == multiset(s.trace)[Join];
      }
    }
  }

  /** Over any sequence of presses after mounting, `join` is issued at most
      once: once if the join button was pressed at all, never otherwise. */
  lemma {:induction false} JoinAtMostOnce(ps: seq<ControlPress>, appointment: string, record: string)
    ensures multiset(Run(Mounted, ps, appointment, record).trace)[Join] == if JoinButton in ps then 1 else 0
  {
    JoinButtonOneShot(Mounted, ps, appointment, record);
  }

  function MicPresses(ps: seq<ControlPress>): nat
  {
    if ps == [] then 0 else (if ps[0] == MicButton then 1 else 0) + MicPresses(ps[1..])
  }

  /** Each mic press issues one `toggleMic` and negates the flag, so the flag
      is its start value after an even number of presses. */
  lemma {:induction false} MicFollowsPresses(s: ControlsState, ps: seq<ControlPress>, appointment: string, record: string)
    ensures Run(s, ps, appointment, record).micOn == (if MicPresses(ps) % 2 == 0 then s.micOn else !s.micOn)
    ensures multiset(Run(s, ps, appointment, record).trace)[ToggleMic]
            == multiset(s.trace)[ToggleMic] + MicPresses(ps)
    decreases |ps|
  {
    if ps != [] {
      var t := Step(s, ps[0], appointment, record);
      MicFollowsPresses(t, ps[1..], appointment, record);
      if ps[0] != MicButton {
        assert multiset(t.trace)[ToggleMic] == multiset(s.trace)[ToggleMic];
      }
    }
  }

  /** Every hang-up press, whatever its update's outcome, issues a leave, a
      "Completed" status update and a navigation: pressing twice repeats all three. */
  lemma {:induction false} EveryHangUpCompletes(s: ControlsState, ps: seq<ControlPress>, appointment: string, record: string)
    ensures forall e :: e in HangUpEffects(appointment, record) ==>
              multiset(Run(s, ps, appointment, record).trace)[e] == multiset(s.trace)[e] + HangUps(ps)
    decreases |ps|
  {
    if ps != [] {
      var t := Step(s, ps[0], appointment, record);
      EveryHangUpCompletes(t, ps[1..], appointment, record);
      forall e | e in HangUpEffects(appointment, record)
        ensures multiset(t.trace)[e] == multiset(s.trace)[e] + (if ps[0].HangUpButton? then 1 else 0)
      {
        if ps[0].HangUpButton? {
          assert t.trace == s.trace + HangUpEffects(appointment, record);
          assert multiset(HangUpEffects(appointment, record))[e] == 1;
        }
      }
    }
  }

  /** The `ControlsContainer` component.  `appointmentId` and `recordId` are
      the route's `AppointmentID` and `id`. */
  class ControlsContainer {
    const appointmentId: string
    const recordId: string
    var isButtonDisabled: bool
    var isMicOn: bool
    var isLoading: bool
    var trace: seq<Effect>

    function State(): ControlsState
      reads this
    {
      ControlsState(isButtonDisabled, isMicOn, isLoading, trace)
    }

    constructor (appointmentId: string, recordId: string)
      ensures this.appointmentId == appointmentId && this.recordId == recordId
      ensures State() == Mounted
    {
      this.appointmentId := appointmentId;
      this.recordId := recordId;
      isButtonDisabled := false;
      isMicOn := true;
      isLoading := false;
      trace := [];
    }

    method HandleButtonDisable()
      modifies this`isButtonDisabled
      ensures isButtonDisabled
    {
      isButtonDisabled := true;
    }

    method HandleMicPress()
      modifies this`isMicOn
      ensures isMicOn == !old(isMicOn)
    {
      isMicOn := !isMicOn;
    }

    /** Issues the status update; `isLoading` is raised first and lowered only
        when the update ends without an error. */
    method HandleUpdate(update: WriteOutcome)
      modifies this`isLoading, this`trace
      ensures trace == old(trace) + [UpdateAppointmentStatus(appointmentId, CompletedStatus)]
      ensures isLoading <==> update != WriteOk
    {
      isLoading := true;
      trace := trace + [UpdateAppointmentStatus(appointmentId, CompletedStatus)];
      match update
      case WriteOk => isLoading := false;
      case WriteError =>
      case WriteThrew =>
    }

    /** The join button's `onPress`; a disabled button does not fire it. */
    method OnJoinPress()
      modifies this
      ensures State() == Step(old(State()), JoinButton, appointmentId, recordId)
      ensures isButtonDisabled
      ensures trace == old(trace) + (if old(isButtonDisabled) then [] else [Join])
      ensures isMicOn == old(isMicOn) && isLoading == old(isLoading)
    {
      if !isButtonDisabled {
        trace := trace + [Join];
        HandleButtonDisable();
      }
    }

    method OnMicPress()
      modifies this
      ensures State() == Step(old(State()), MicButton, appointmentId, recordId)
      ensures isMicOn == !old(isMicOn) && trace == old(trace) + [ToggleMic]
      ensures isButtonDisabled == old(isButtonDisabled) && isLoading == old(isLoading)
    {
      trace := trace + [ToggleMic];
      HandleMicPress();
    }

    method OnHangUpPress(update: WriteOutcome)
      modifies this
      ensures State() == Step(old(State()), HangUpButton(update), appointmentId, recordId)
      ensures trace == old(trace) + [Leave, UpdateAppointmentStatus(appointmentId, CompletedStatus),
                                     Navigate(SessionEndedPath, recordId)]
      ensures !isLoading <==> update == WriteOk
      ensures isButtonDisabled == old(isButtonDisabled) && isMicOn == old(isMicOn)
    {
      trace := trace + [Leave];
      HandleUpdate(update);
      trace := trace + [Navigate(SessionEndedPath, recordId)];
    }
  }
}
