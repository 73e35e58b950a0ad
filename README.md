# Voice-call screen: a Dafny model

This project models the state logic of a telehealth app's patient voice-call screen (`VoiceCall.tsx`).

- The patient creates a call room or joins one by typing a code. The room id is recorded on the appointment.
- The call screen waits for the doctor and shows "Doctor has joined the call." when the roster holds two participants.
- The patient can mute or unmute and can hang up. Hanging up leaves the meeting, marks the appointment `"Completed"` and navigates to the session-ended screen.

Each React component whose `useState` hooks hold call state becomes a class. Its fields are those hooks. The join screen's own hooks are not a class: the text field's content is the `JoinRoom(text)` argument of a press, and its focus flag only styles the field. It also has an effect `trace`: the calls it makes to the meeting SDK, the backend and the router, in the order the handlers make them (`CallEffects.Effect`). The outside world's answers are method parameters:

- what the room-creation request returned (`CreateOutcome`);
- how a backend write ended (`WriteOutcome`);
- how the doctor query ended (`FetchOutcome`);
- the current participant roster.

The decision rules are functions:

- `ScreenFor`: which screen is shown.
- `PresenceMessage`: the presence rule.
- `RosterViewFor`: which participant is displayed.
- `AfterFetch`: how a fetch result is handled.
- `GetMeetingIdStep`: the room resolution.
- `Step`: one press on a call control.

The press handlers `GetMeetingId`, `FetchDoctors`, `OnJoinPress`, `OnMicPress` and `OnHangUpPress` tie their new state to the matching function. The small helpers `HandleButtonDisable`, `HandleMicPress` and `HandleUpdate` state their fields directly. `CallScreenIsFinal`, `RoomFixedOnceSet`, `JoinCodesNeverCreate`, `PressesKeepConsistent`, `JoinButtonOneShot`, `MicFollowsPresses` and `EveryHangUpCompletes` prove what holds over whole histories of presses (`AfterPresses`, `Run`). `GetMeetingIdKeepsConsistent` and `FetchOnMount` are about a single step.

Modules:

- `effects.dfy` (`CallEffects`): `Option`, JavaScript truthiness of an optional string, write outcomes, effects and the constant strings.
- `room.dfy` (`RoomScreen`): the `VoiceCall` component, `getMeetingId` and the screen choice.
- `presence.dfy` (`Presence`): the `MeetingView` presence effect, the `ParticipantList` choice, and the `FetchDoctors` handling. `ParticipantList` and `ParticipantView` have identical copies of that handling, so one `DoctorCard` class models both.
- `controls.dfy` (`CallControls`): the `ControlsContainer` component.

Where the code behaves differently from what a user of the screen would expect, the model follows the code:

- One would expect a typed code to be used only when it is non-empty. The code tests `id == null`, so the empty string from an untouched text field is also taken verbatim. It then leaves the user on the join screen, and nothing is written to the appointment.
- One would expect a failed room creation to be reported. The code has no handler: a rejected room-creation request makes `getMeetingId` reject before `setMeetingId` runs. `meetingId` keeps its value, but the request has still been issued (`CreateRejected`).
- One would expect the profile to be absent after a failed fetch. In the code, the exception path sets only the error text and keeps whatever doctor was already there. From a fresh mount there is no doctor yet, and `FetchOnMount` states that case.
- One would expect the presence message to mark the moment a second participant arrives. The code re-applies the rule after every roster change, so the message depends only on the current roster size.

## Model

| member | source | states |
|---|---|---|
| `RoomScreen.ScreenFor` | VoiceCall.tsx:548-564 | The call screen is shown exactly when `meetingId` is truthy. Its configuration is always that id with mic on, webcam off and name "Patient". |
| `RoomScreen.VoiceCall.constructor` | VoiceCall.tsx:526-528 | The screen starts with a null `meetingId`, on the join screen, with nothing issued and the appointment invariant holding. |
| `RoomScreen.VoiceCall.GetMeetingId` | VoiceCall.tsx:530-546 | With no argument, a room is requested first. A supplied string, `""` included, becomes `meetingId` verbatim and no room is requested. A rejected request leaves `meetingId` unchanged. The appointment's meetingId column is written, keyed by `AppointmentID`, exactly when the new id is truthy and with exactly that id. The write's outcome changes nothing. |
| `RoomScreen.GetMeetingIdStep` | VoiceCall.tsx:530-546 | One call of `getMeetingId`. The calls issued before are kept as a prefix. A string argument becomes the id verbatim. With no argument, the created `roomId` becomes the id, or a rejection leaves the id alone with only the create request added. The create request is issued exactly when there is no argument. Every write issued carries the new id and happens only when that id is truthy. Unless the request was rejected, a truthy new id is always written. |
| `RoomScreen.Press` | VoiceCall.tsx:66-118 | On the join screen, "Create Room" issues the create request first, and "Join the Room" makes the typed text the id without any create request. Once the call screen is up, the join screen's buttons are gone and a press changes nothing. |
| `RoomScreen.GetMeetingIdKeepsConsistent` | VoiceCall.tsx:530-546 | From the join screen, one resolution keeps the invariant. Nothing is written while the id is falsy, only the screen's id is ever written, and it is written exactly once once truthy. |
| `RoomScreen.CallScreenIsFinal` | VoiceCall.tsx:548-564 | Once `meetingId` is truthy, the join screen is gone, and no press sequence changes the id or issues anything. |
| `RoomScreen.RoomFixedOnceSet` | VoiceCall.tsx:530-564 | With presses handled one at a time, once a press history makes the id truthy, no later presses change it. |
| `RoomScreen.JoinCodesNeverCreate` | VoiceCall.tsx:531 | A history of "Join the Room" presses, even with empty codes, never issues the room-creation request. |
| `RoomScreen.PressesKeepConsistent` | VoiceCall.tsx:530-564 | With presses handled one at a time, every history of join-screen presses keeps the issued appointment writes in step with the screen's id: none while it is falsy, each carrying that id, exactly one once it is truthy. |
| `Presence.PresenceMessage` | VoiceCall.tsx:485-491 | The message is "Doctor has joined the call." exactly when the roster size is 2, and `""` for every other size. |
| `Presence.RosterViewFor` | VoiceCall.tsx:410-453 | An empty roster shows the "Tap to call" panel. Otherwise the first entry is the one displayed. |
| `Presence.MeetingView.constructor` | VoiceCall.tsx:456-491 | On mount, the appointment is read only for a truthy `appointmentId`. The call screen passes null, so nothing is read. The presence rule is applied to the initial roster. |
| `Presence.MeetingView.OnParticipantsChanged` | VoiceCall.tsx:485-491 | After every roster change, the message is shown exactly when the roster holds 2 entries, and no call is issued. |
| `Presence.AfterFetch` | VoiceCall.tsx:319-332 | Data sets the doctor and clears the error. An error clears the doctor and sets "could not fetch description articles in database", and wins over data. An exception sets "An unexpected error occurred" and keeps the doctor. A response with neither changes nothing. |
| `Presence.FetchOnMount` | VoiceCall.tsx:307-336 | From a freshly mounted panel, the profile and an error text are never shown together. The profile is shown exactly when data arrived without an error. |
| `Presence.DoctorCard.constructor` | VoiceCall.tsx:379-381 | The panel starts with no doctor and no error. |
| `Presence.DoctorCard.FetchDoctors` | VoiceCall.tsx:383-406 | One `doctors` query keyed by the route's `id` is issued, and the panel becomes `AfterFetch` of the old panel and the outcome. |
| `CallControls.Step` | VoiceCall.tsx:237-283 | One press on a call control. An enabled join button issues `join` and disables itself, and a disabled one does nothing. The mic button issues `toggleMic` and negates the mic flag. The hang-up button issues leave, the "Completed" update and navigation with `id`, in that order, and leaves loading set unless the update succeeded. Each press keeps the other flags. |
| `CallControls.JoinButtonOneShot` | VoiceCall.tsx:199-250 | Over any press sequence, the join button ends disabled exactly when it started disabled or was pressed. Nothing re-enables it. `join` is issued once more exactly when the button was enabled and pressed. |
| `CallControls.JoinAtMostOnce` | VoiceCall.tsx:246-250 | From mount, `join` is issued at most once: once if the join button was ever pressed, otherwise never. |
| `CallControls.MicFollowsPresses` | VoiceCall.tsx:200-266 | Each mic press issues one `toggleMic` and negates the flag. After any sequence, the flag equals its start value exactly when the number of mic presses is even. |
| `CallControls.EveryHangUpCompletes` | VoiceCall.tsx:271-280 | Each hang-up press adds one leave, one "Completed" status update and one navigation, whatever the update's outcome. A second press repeats all three. |
| `CallControls.ControlsContainer.constructor` | VoiceCall.tsx:194-202 | The controls start with join enabled, mic on, not loading and nothing issued. |
| `CallControls.ControlsContainer.HandleButtonDisable` | VoiceCall.tsx:225-227 | It disables the join button. |
| `CallControls.ControlsContainer.HandleMicPress` | VoiceCall.tsx:221-223 | It negates the mic flag. |
| `CallControls.ControlsContainer.HandleUpdate` | VoiceCall.tsx:204-219 | It issues the status update `"Completed"` keyed by `AppointmentID`. Afterwards `isLoading` is set unless the update ended without an error. |
| `CallControls.ControlsContainer.OnJoinPress` | VoiceCall.tsx:237-253 | An enabled button issues `join` and becomes disabled. A disabled one ignores the press. The mic and loading flags are untouched. |
| `CallControls.ControlsContainer.OnMicPress` | VoiceCall.tsx:262-269 | It issues one `toggleMic` and negates the mic flag. The join button and the loading flag are untouched. |
| `CallControls.ControlsContainer.OnHangUpPress` | VoiceCall.tsx:271-283 | It issues leave, then the "Completed" update, then navigation to the session-ended screen with `id`. There is no guard. `isLoading` ends false exactly when the update succeeded. |

## Left out

- `createMeeting` and `token` in api.ts are an HTTP POST, JSON parsing and an environment variable. They are not modelled. Their result is the `CreateOutcome` parameter, where a missing `roomId` is `RoomCreated(None)`.
- The backend and the meeting SDK are not modelled: query building, `MeetingProvider`/`useMeeting` internals, audio, and where the participant map comes from. The roster and every read/write outcome are parameters.
- Async interleaving is not modelled. Calls are effects issued in source order, and each awaited result is handled in the same step. Three consequences are lost:
  - a second press landing before React re-renders the disabled join button or the call screen;
  - `HandleUpdate` not being awaited before `router.push`;
  - results arriving after unmount.
- The result of the `fetchMeetingId` read (VoiceCall.tsx:468-478) is not modelled because it is only logged. The model records only whether the read is issued.
- Rendering, styles, theme, icons, the text field's focus/blur handlers, the back button and console logging are not modelled. They hold no state logic. `isLoading` is tracked but never rendered in the source.
- `RosterViewFor` says which participant id is passed on. Whatever that id is, `ParticipantView` fetches the doctor by the route's `id`.
- RoomFixedOnceSet: holds only when each press is handled to completion before the next. "Create Room" has no guard, and the join screen stays up while `await createMeeting` is pending. Two quick taps issue two room-creation requests. The first result shows the call screen. The second then replaces that truthy id and writes the appointment a second time. The model does not capture this.
- PressesKeepConsistent: speaks of the writes issued, not of the appointment's stored column. A failed or throwing write is only logged, so the stored column can stay stale while the screen carries on. Under the double-tap window described above, two writes are issued.
