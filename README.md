# daily-angular call state, modelled in Dafny

This project models the state logic of the Daily Angular demo. The video SDK is
treated as opaque. Three Angular components keep local state in step with SDK
events and user actions:

- **Call** (`call.dfy`, module `Call`): `CallComponent` keeps a table of
  participants keyed by session id, plus the flags `joined`, `error` and
  `isPublic`. `FormatParticipantObj` copies an SDK participant record. A track
  counts as ready when it exists and its state is `"playable"` or `"loading"`.
  `UpdatedParticipant` gives the effect of a track event on one stored entry:
  only the named kind ("video" or "audio") is re-evaluated, and the stored track
  is replaced only by a ready track with a different id. Each event handler is a
  method whose contract states the whole new state (`State()`) and the commands
  it issued to the SDK.
  - `ApplyAll` replays a sequence of join and leave notifications over the
    table. `ApplyAllIsPresent` proves that, starting from the empty table, the
    table holds exactly the participants that joined and did not leave since.
    So its size is their number.
  - `AliceAndBob` is a client method that walks through one session using the
    contracts alone.
- **Chat** (`chat.dfy`, module `Chat`; `js_string.dfy`, module `JsString`):
  `ChatComponent` keeps a message log. It appends incoming app messages, except
  the reserved `"request-chat-history"` control message. On submit, it trims
  the form text with JavaScript's `trim`, sends it under the user's name, logs
  it under `"Me"` and resets the form. Null or blank input does nothing.
  `JsString.Trim` uses the exact set of ECMAScript white-space and
  line-terminator code points.
- **Container** (`container.dfy`, module `Container`):
  `DailyContainerComponent` holds the user name and the room URL. The call view
  is shown while the URL is non-empty. `CallEnded` clears both fields.

The SDK is represented only where it touches these components:

- Payload shapes are in module `Daily` (`daily.dfy`).
- The answers of SDK queries (`accessState`, `localVideo`, `localAudio`,
  `getCallInstance`) are method parameters.
- The commands a component issues (`join`, `leave`, `destroy`,
  `setLocalVideo`, `setLocalAudio`, `sendAppMessage`) and the call component's
  `callEnded` output are appended to a ghost log `issued`.

Three details of the code, which the model follows:

- The chat log is cleared on destruction only if a call object exists. Without
  one, `ngOnDestroy` returns first.
- `handleLeftMeeting` does not clear the participant table itself. The container
  hides the call view when the call ends.
- `leaveCall` clears the error even when there is no call object.

## Model

| member | source | states |
|---|---|---|
| Call.FormatParticipantObj | src/app/call/call.component.ts:85-104 | The copy keeps the id, name and local flag. It takes each kind's persistent track. `videoReady`/`audioReady` hold iff that kind's track is present and its state is "playable" or "loading". A ready kind has a track. |
| Call.UpdatedParticipant | src/app/call/call.component.ts:111-147 | For "video", the new `videoReady` is the fresh readiness, and the audio fields, name, local flag and id are unchanged (symmetric for "audio"). Other types change nothing. A stored track changes only to the fresh track, when that track is ready and has a different id, and it always changes in that case. |
| Call.UpdatedParticipantIdempotent | src/app/call/call.component.ts:115-146 | Applying the same track event twice gives the same entry as applying it once. |
| Call.UnreadyTrackKeepsStoredTrack | src/app/call/call.component.ts:122-145 | An event whose tracks are not ready never replaces a stored track object. |
| Call.ApplyAllMembership | src/app/call/call.component.ts:149-183 | After any sequence of join and leave notifications from the empty table, an id has an entry iff some join for it is not followed by a leave for it. |
| Call.ApplyAllIsPresent | src/app/call/call.component.ts:149-183 | The table's keys are exactly the joined-but-not-left ids, its size is their number, and every entry is stored under its own id. |
| Call.ApplyAllKeyedById | src/app/call/call.component.ts:106-109 | Join and leave notifications keep every entry stored under its own session id. |
| Call.CallComponent.constructor | src/app/call/call.component.ts:40-44 | Starts with no call object, no error, an empty table, `isPublic` true, `joined` false and nothing issued. |
| Call.CallComponent.Init | src/app/call/call.component.ts:46-67 | Obtains the call object and issues one `join` with the user name and room URL. Nothing else changes. |
| Call.CallComponent.AddParticipant | src/app/call/call.component.ts:106-109 | `participants[session_id]` becomes the formatted record, overwriting any entry. Every other key and entry is unchanged. |
| Call.CallComponent.UpdateTrack | src/app/call/call.component.ts:111-147 | For "video"/"audio" (which dereference the entry, so it must exist), only that participant's entry is replaced, by `UpdatedParticipant`. Any other type leaves the table unchanged. |
| Call.CallComponent.HandleJoinedMeeting | src/app/call/call.component.ts:149-161 | With a payload and a call object: `joined` becomes true, `isPublic` holds iff access is known with level "full", and the local participant is added. Otherwise nothing changes. Nothing is issued. |
| Call.CallComponent.ParticipantJoined | src/app/call/call.component.ts:163-168 | Adds the payload's participant; without a payload nothing changes. |
| Call.CallComponent.HandleTrackStartedStopped | src/app/call/call.component.ts:170-174 | Without a payload, without a participant, or before joining, the whole state is unchanged. Otherwise it updates the named track kind of that participant only. |
| Call.CallComponent.HandleParticipantLeft | src/app/call/call.component.ts:176-183 | Removes exactly the given session id, which is a no-op if it is absent. Every other entry and flag is unchanged. |
| Call.CallComponent.HandleError | src/app/call/call.component.ts:185-190 | Records the error message. The table and the other flags are unchanged. |
| Call.CallComponent.HandleLeftMeeting | src/app/call/call.component.ts:192-198 | With a payload and a call object: `joined` becomes false, and `destroy` then `callEnded` are issued, in that order. Otherwise nothing changes. |
| Call.CallComponent.LeaveCall | src/app/call/call.component.ts:200-206 | Clears the error in every case. It issues one `leave` iff there is a call object. |
| Call.CallComponent.ToggleLocalVideo | src/app/call/call.component.ts:208-217 | Issues nothing unless joined with a call object. Otherwise it issues one `setLocalVideo` with the negation of the reported value. State is unchanged. |
| Call.CallComponent.ToggleLocalAudio | src/app/call/call.component.ts:219-228 | Issues nothing unless joined with a call object. Otherwise it issues one `setLocalAudio` with the negation of the reported value. State is unchanged. |
| JsString.LeadingSpace | src/app/chat/chat.component.ts:66 | Counts the white space at the start: every character before the count is white space, and the one at the count (if any) is not. |
| JsString.TrailingSpaceStart | src/app/chat/chat.component.ts:66 | Gives the start of the trailing white space: every character from it on is white space, and the one before it (if any) is not. |
| JsString.Trim | src/app/chat/chat.component.ts:66 | The result is empty iff the input is blank. Otherwise it neither starts nor ends with white space. |
| JsString.TrimIsSlice | src/app/chat/chat.component.ts:66 | The trimmed text is a contiguous part of the input between a blank prefix and a blank suffix. |
| JsString.TrimIdempotent | src/app/chat/chat.component.ts:66 | Trimming twice gives the same text as trimming once. |
| Chat.SubmittedText | src/app/chat/chat.component.ts:66-67 | A submission has text iff the form value is non-null and not blank; the text is the trimmed value, non-empty and without white space at either end. |
| Chat.ChatComponent.constructor | src/app/chat/chat.component.ts:19-28 | Starts with an empty log, the chat closed, an empty form value, no call object and nothing issued. |
| Chat.ChatComponent.Init | src/app/chat/chat.component.ts:30-34 | Keeps the call object when the SDK already has one. |
| Chat.ChatComponent.OnDestroy | src/app/chat/chat.component.ts:36-41 | Leaves the log empty when there is a call object; otherwise it returns first and the log is unchanged. |
| Chat.ChatComponent.ToggleChatView | src/app/chat/chat.component.ts:44-46 | Negates `chatIsOpen`. |
| Chat.ToggleChatViewTwice | src/app/chat/chat.component.ts:44-46 | Toggling twice restores the original `chatIsOpen`. |
| Chat.ChatComponent.HandleNewMessage | src/app/chat/chat.component.ts:49-54 | Without a payload, or for the "request-chat-history" event, the log is unchanged. Otherwise exactly `{message, name}` is appended at the end and earlier messages are kept. |
| Chat.ChatComponent.OnSubmit | src/app/chat/chat.component.ts:65-77 | With null or blank input, or no call object, nothing is sent and the log and form are unchanged. Otherwise exactly one app message `{trimmed, userName}` is sent, `{trimmed, "Me"}` is appended and the form value is reset to null. |
| Container.DailyContainerComponent.constructor | src/app/daily-container/daily-container.component.ts:11-12 | Both fields start unset (empty), so the join form shows. |
| Container.DailyContainerComponent.SetUserName | src/app/daily-container/daily-container.component.ts:14-17 | Sets `userName`; `dailyRoomUrl` is unchanged. |
| Container.DailyContainerComponent.SetUrl | src/app/daily-container/daily-container.component.ts:19-22 | Sets `dailyRoomUrl`; `userName` is unchanged. The call view shows iff the URL is non-empty. |
| Container.DailyContainerComponent.CallEnded | src/app/daily-container/daily-container.component.ts:24-28 | Both fields become empty, so the call view is hidden. |
| Container.CallEndedIdempotent | src/app/daily-container/daily-container.component.ts:24-28 | A second `CallEnded` leaves the same state as the first. |

## Left out

- The Daily SDK itself is not modelled. This covers call-object creation, join, leave, destroy, access state, local media and app messaging. Queries are parameters and commands are entries in the ghost log `issued`. The SDK's reaction to a command (for example `localVideo` changing after `setLocalVideo`) is not modelled.
- Event-listener registration and removal (`on`/`off` in both components' init and destroy) is not modelled: each handler is a method that callers invoke directly.
- Participant records are mutated in place by `updateTrack`. The model instead replaces the map entry with the updated value. No other reference to a record exists in these components, so nothing observable is lost.
- `MediaTrack.instance` stands for JavaScript object identity. Building `MediaStream`s from tracks (video-tile) is out of scope.
- Call.CallComponent.UpdateTrack: if the participant is absent, the source throws a TypeError for "video"/"audio". The model makes presence a precondition; the same applies to HandleTrackStartedStopped.
- Call.ApplyAllIsPresent covers join and leave notifications only. Track events never change the set of keys (UpdateTrack's contract), but they are not part of the replayed sequence, because in the source they can throw.
- The display order of participants (`Object.values` in the template) is not modelled. The table is a map.
- JsString.Trim works on Unicode scalar values. JavaScript strings are UTF-16 code units, so lone surrogates cannot be represented. The white-space set follows Unicode category Zs as currently defined.
- The app-message payload is untyped (`any`) in the source. The model gives it three string fields, so a missing `event`, `message` or `name` is not distinguished from a string value.
- The container's fields start `undefined` in the source. The model starts them as `""`, which is equally falsy, so the join form shows in both.
- The `isPublic` warning banner, the error-message reset and all templates are not modelled. They are rendering only.
- `console.log`, `onKeyDown` (Enter-key plumbing), and Angular change detection and `FormBuilder` internals are not modelled. The form control is the field `formMessage`.
- The video-tile, join-form, error-message and app-module files are not part of this model. They hold DOM media wiring, SDK calls and declarative configuration.
