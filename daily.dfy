/** The values the Daily video SDK hands to the components, and the commands the
    components issue to it.  The SDK itself is opaque: nothing here models how it
    joins, negotiates media or delivers events, only the shapes of what crosses the
    boundary. */
module Daily {

  datatype Option<+T> = None | Some(value: T)

  /** A browser media track.  `id` is the track's identifier as the SDK reports it;
      `instance` stands for the identity of the JavaScript object, so that two
      copies of a track with the same id can still be told apart. */
  datatype MediaTrack = MediaTrack(id: string, instance: nat)

  /** What the SDK reports about one kind of track of a participant: the track
      object, if any, and its lifecycle state ("playable", "loading", "off", ...). */
  datatype TrackInfo = TrackInfo(persistentTrack: Option<MediaTrack>, state: string)

  datatype Tracks = Tracks(video: Option<TrackInfo>, audio: Option<TrackInfo>)

  /** A participant record as delivered in SDK events. */
  datatype DailyParticipant = DailyParticipant(sessionId: string, userName: string, local: bool, tracks: Tracks)

  /** Result of the SDK's access-state query: either "unknown" or an access level. */
  datatype Access = UnknownAccess | Access(level: string)

  // Event payloads, one per SDK event the components listen to.
  datatype JoinedMeetingEvent = JoinedMeetingEvent(localParticipant: DailyParticipant)
  datatype ParticipantEvent = ParticipantEvent(participant: DailyParticipant)
  datatype TrackEvent = TrackEvent(participant: Option<DailyParticipant>, trackType: string)
  datatype ParticipantLeftEvent = ParticipantLeftEvent(participant: DailyParticipant)
  datatype FatalErrorEvent = FatalErrorEvent(errorMsg: string)
  datatype NoPayloadEvent = NoPayloadEvent

  /** The application data of an "app-message" event.  The SDK types it as `any`;
      the model gives it the three string fields the chat reads. */
  datatype AppData = AppData(event: string, message: string, name: string)
  datatype AppMessageEvent = AppMessageEvent(data: AppData)

  /** Effects a component issues: SDK commands and the call component's
      `callEnded` output towards its parent. */
  datatype Command =
    | Join(userName: string, url: string)
    | Leave
    | Destroy
    | SetLocalVideo(enabled: bool)
    | SetLocalAudio(enabled: bool)
    | SendAppMessage(message: string, name: string)
    | EmitCallEnded
}
