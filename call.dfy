/** The call component: a table of participants kept in step with SDK events,
    plus the session flags `joined`, `error` and `isPublic`. */
module Call {
  import opened Daily

  const PlayableState := "playable"
  const LoadingState := "loading"

  /** The local view of one participant, as the video tiles display it. */
  datatype Participant = Participant(
    videoTrack: Option<MediaTrack>,
    audioTrack: Option<MediaTrack>,
    videoReady: bool,
    audioReady: bool,
    userName: string,
    local: bool,
    id: string)

  /** Participants keyed by session id. */
  type Participants = map<string, Participant>

  /** Every entry is stored under its own session id. */
  ghost predicate KeyedById(m: Participants) {
    forall id :: id in m ==> m[id].id == id
  }

  /** The track object of one kind, if the SDK reported one. */
  function PersistentTrack(info: Option<TrackInfo>): Option<MediaTrack> {
    if info.Some? then info.value.persistentTrack else None
  }

  function TrackId(t: Option<MediaTrack>): Option<string> {
    if t.Some? then Some(t.value.id) else None
  }

  /** A track is ready to play when it exists and is playable or loading
      (loading is expected to become playable very soon). */
  predicate IsReady(info: Option<TrackInfo>) {
    PersistentTrack(info).Some? && (info.value.state == PlayableState || info.value.state == LoadingState)
  }

  /** The copy of an SDK participant record that the table stores. */
  function FormatParticipantObj(p: DailyParticipant): (r: Participant)
    ensures r.id == p.sessionId && r.userName == p.userName && r.local == p.local
    ensures r.videoTrack == PersistentTrack(p.tracks.video)
    ensures r.audioTrack == PersistentTrack(p.tracks.audio)
    ensures r.videoReady <==>
              p.tracks.video.Some? && p.tracks.video.value.persistentTrack.Some?
              && p.tracks.video.value.state in {"playable", "loading"}
    ensures r.audioReady <==>
              p.tracks.audio.Some? && p.tracks.audio.value.persistentTrack.Some?
              && p.tracks.audio.value.state in {"playable", "loading"}
    ensures r.videoReady ==> r.videoTrack.Some?
    ensures r.audioReady ==> r.audioTrack.Some?
  {
    Participant(
      PersistentTrack(p.tracks.video),
      PersistentTrack(p.tracks.audio),
      IsReady(p.tracks.video),
      IsReady(p.tracks.audio),
      p.userName,
      p.local,
      p.sessionId)
  }

  /** The stored entry `existing` after a track event of kind `trackType` that
      carries the fresh SDK record `p`: only the named kind is re-evaluated, and
      its track is replaced only by a ready track with a different id. */
  function UpdatedParticipant(existing: Participant, p: DailyParticipant, trackType: string): (r: Participant)
    // only the named kind changes, and its readiness is the fresh one
    ensures trackType == "video" ==>
              r.videoReady == IsReady(p.tracks.video)
              && r.audioReady == existing.audioReady && r.audioTrack == existing.audioTrack
    ensures trackType == "audio" ==>
              r.audioReady == IsReady(p.tracks.audio)
              && r.videoReady == existing.videoReady && r.videoTrack == existing.videoTrack
    ensures trackType != "video" && trackType != "audio" ==> r == existing
    ensures r.userName == existing.userName && r.local == existing.local && r.id == existing.id
    // a stored track changes only to a ready track with a different id ...
    ensures r.videoTrack != existing.videoTrack ==>
              trackType == "video" && IsReady(p.tracks.video)
              && r.videoTrack == PersistentTrack(p.tracks.video)
              && TrackId(r.videoTrack) != TrackId(existing.videoTrack)
    ensures r.audioTrack != existing.audioTrack ==>
              trackType == "audio" && IsReady(p.tracks.audio)
              && r.audioTrack == PersistentTrack(p.tracks.audio)
              && TrackId(r.audioTrack) != TrackId(existing.audioTrack)
    // ... and always does when the fresh track is ready and its id differs
    ensures trackType == "video" && IsReady(p.tracks.video)
            && TrackId(PersistentTrack(p.tracks.video)) != TrackId(existing.videoTrack) ==>
              r.videoTrack == PersistentTrack(p.tracks.video)
    ensures trackType == "audio" && IsReady(p.tracks.audio)
            && TrackId(PersistentTrack(p.tracks.audio)) != TrackId(existing.audioTrack) ==>
              r.audioTrack == PersistentTrack(p.tracks.audio)
  {
    var current := FormatParticipantObj(p);
    if trackType == "video" then
      existing.(
        videoReady := current.videoReady,
        videoTrack :=
          if current.videoReady && TrackId(existing.videoTrack) != TrackId(current.videoTrack)
          then current.videoTrack else existing.videoTrack)
    else if trackType == "audio" then
      existing.(
        audioReady := current.audioReady,
        audioTrack :=
          if current.audioReady && TrackId(existing.audioTrack) != TrackId(current.audioTrack)
          then current.audioTrack else existing.audioTrack)
    else
      existing
  }

  /** Delivering the same track event twice has the effect of delivering it once. */
  lemma UpdatedParticipantIdempotent(existing: Participant, p: DailyParticipant, trackType: string)
    ensures UpdatedParticipant(UpdatedParticipant(existing, p, trackType), p, trackType)
            == UpdatedParticipant(existing, p, trackType)
  {
  }

  /** A track event whose track is not ready keeps the stored track object, even
      when the event carries a different one. */
  lemma UnreadyTrackKeepsStoredTrack(existing: Participant, p: DailyParticipant, trackType: string)
    requires !IsReady(p.tracks.video) && !IsReady(p.tracks.audio)
    ensures UpdatedParticipant(existing, p, trackType).videoTrack == existing.videoTrack
    ensures UpdatedParticipant(existing, p, trackType).audioTrack == existing.audioTrack
  {
  }

  // ---------------------------------------------------------------------------
  // The table under a sequence of join and leave notifications.

  /** A notification that changes the set of participants: a join ("joined-meeting"
      for the local user, "participant-joined" for others) or a "participant-left". */
  datatype MembershipEvent = Added(participant: DailyParticipant) | Removed(sessionId: string)

  predicate AddsId(e: MembershipEvent, id: string) {
    e.Added? && e.participant.sessionId == id
  }

  predicate RemovesId(e: MembershipEvent, id: string) {
    e.Removed? && e.sessionId == id
  }

  /** The table after one notification, as `addParticipant` and
      `handleParticipantLeft` change it. */
  function ApplyMembership(m: Participants, e: MembershipEvent): Participants {
    match e
    case Added(p) => m[p.sessionId := FormatParticipantObj(p)]
    case Removed(id) => m - {id}
  }

  /** The table after a sequence of notifications, delivered in order. */
  function ApplyAll(m: Participants, evs: seq<MembershipEvent>): Participants
    decreases |evs|
  {
    if evs == [] then m
    else ApplyMembership(ApplyAll(m, evs[..|evs| - 1]), evs[|evs| - 1])
  }

  /** The participant with session id `id` has joined and has not left since. */
  ghost predicate InCall(evs: seq<MembershipEvent>, id: string) {
    exists k :: 0 <= k < |evs| && AddsId(evs[k], id) && NotRemovedAfter(evs, k, id)
  }

  ghost predicate NotRemovedAfter(evs: seq<MembershipEvent>, k: nat, id: string) {
    forall j :: k < j < |evs| ==> !RemovesId(evs[j], id)
  }

  /** The ids of the joined-but-not-left participants. */
  ghost function PresentIds(evs: seq<MembershipEvent>): set<string> {
    set k | 0 <= k < |evs| && evs[k].Added? && NotRemovedAfter(evs, k, evs[k].participant.sessionId)
      :: evs[k].participant.sessionId
  }

  /** Starting from the empty table, a participant has an entry exactly when it
      has joined and not left since. */
  lemma {:induction false} ApplyAllMembership(evs: seq<MembershipEvent>, id: string)
    ensures id in ApplyAll(map[], evs) <==> InCall(evs, id)
    decreases |evs|
  {
    if evs != [] {
      var n := |evs| - 1;
      var init := evs[..n];
      ApplyAllMembership(init, id);
      if AddsId(evs[n], id) {
        assert NotRemovedAfter(evs, n, id);
      } else if RemovesId(evs[n], id) {
        forall k | 0 <= k < |evs| && AddsId(evs[k], id)
          ensures !NotRemovedAfter(evs, k, id)
        {
          assert k < n;
        }
      } else {
        if InCall(init, id) {
          var k :| 0 <= k < |init| && AddsId(init[k], id) && NotRemovedAfter(init, k, id);
          assert evs[k] == init[k];
          assert NotRemovedAfter(evs, k, id);
        }
        if InCall(evs, id) {
          var k :| 0 <= k < |evs| && AddsId(evs[k], id) && NotRemovedAfter(evs, k, id);
          assert k < n;
          assert init[k] == evs[k];
          assert NotRemovedAfter(init, k, id);
        }
      }
    }
  }

  /** The table holds exactly the joined-but-not-left participants, so its size
      is their number; and every entry is stored under its own id. */
  lemma ApplyAllIsPresent(evs: seq<MembershipEvent>)
    ensures ApplyAll(map[], evs).Keys == PresentIds(evs)
    ensures |ApplyAll(map[], evs)| == |PresentIds(evs)|
    ensures KeyedById(ApplyAll(map[], evs))
  {
    var m := ApplyAll(map[], evs);
    forall id | id in m ensures id in PresentIds(evs) {
      ApplyAllMembership(evs, id);
      var k :| 0 <= k < |evs| && AddsId(evs[k], id) && NotRemovedAfter(evs, k, id);
      assert evs[k].participant.sessionId == id;
    }
    forall id | id in PresentIds(evs) ensures id in m {
      var k :| 0 <= k < |evs| && evs[k].Added? && NotRemovedAfter(evs, k, evs[k].participant.sessionId)
                && id == evs[k].participant.sessionId;
      assert AddsId(evs[k], id);
      ApplyAllMembership(evs, id);
    }
    assert m.Keys == PresentIds(evs);
    ApplyAllKeyedById(map[], evs);
  }

  /** Join and leave notifications keep every entry stored under its own id. */
  lemma {:induction false} ApplyAllKeyedById(m: Participants, evs: seq<MembershipEvent>)
    requires KeyedById(m)
    ensures KeyedById(ApplyAll(m, evs))
    decreases |evs|
  {
    if evs != [] {
      ApplyAllKeyedById(m, evs[..|evs| - 1]);
    }
  }

  // ---------------------------------------------------------------------------
  // The component.

  /** The component's observable fields, for stating what a handler leaves alone. */
  datatype CallState = CallState(
    participants: Participants,
    joined: bool,
    error: string,
    isPublic: bool,
    hasCallObject: bool)

  class CallComponent {
    /** The room URL and user name handed down by the container. */
    const dailyRoomUrl: string
    const userName: string
    /** Whether the component holds an SDK call object (it obtains one on init). */
    var hasCallObject: bool
    var error: string
    var participants: Participants
    var isPublic: bool
    var joined: bool
    /** The commands issued to the SDK and the `callEnded` outputs emitted, in order. */
    ghost var issued: seq<Command>

    ghost predicate Valid()
      reads this
    {
      KeyedById(participants)
    }

    ghost function State(): CallState
      reads this
    {
      CallState(participants, joined, error, isPublic, hasCallObject)
    }

    constructor (dailyRoomUrl: string, userName: string)
      ensures Valid()
      ensures this.dailyRoomUrl == dailyRoomUrl && this.userName == userName
      ensures State() == CallState(map[], false, "", true, false)
      ensures issued == []
    {
      this.dailyRoomUrl := dailyRoomUrl;
      this.userName := userName;
      hasCallObject := false;
      error := "";
      participants := map[];
      isPublic := true;
      joined := false;
      issued := [];
    }

    /** Initialisation: obtain the call object and ask the SDK to join the room. */
    method Init()
      requires Valid()
      modifies this
      ensures Valid()
      ensures State() == old(State()).(hasCallObject := true)
      ensures issued == old(issued) + [Join(userName, dailyRoomUrl)]
    {
      hasCallObject := true;
      issued := issued + [Join(userName, dailyRoomUrl)];
    }

    /** Store the formatted record under its session id, overwriting any entry
        already there. */
    method AddParticipant(p: DailyParticipant)
      requires Valid()
      modifies this`participants
      ensures Valid()
      ensures participants == ApplyMembership(old(participants), Added(p))
      ensures p.sessionId in participants && participants[p.sessionId] == FormatParticipantObj(p)
      ensures forall id :: id != p.sessionId ==>
                (id in participants <==> id in old(participants))
                && (id in participants ==> participants[id] == old(participants)[id])
    {
      participants := participants[p.sessionId := FormatParticipantObj(p)];
    }

    /** Re-evaluate the named track kind of a participant already in the table.
        Only "video" and "audio" read the stored entry, so only they need it. */
    method UpdateTrack(p: DailyParticipant, trackType: string)
      requires Valid()
      requires trackType == "video" || trackType == "audio" ==> p.sessionId in participants
      modifies this`participants
      ensures Valid()
      ensures trackType == "video" || trackType == "audio" ==>
                participants == old(participants)[p.sessionId :=
                                  UpdatedParticipant(old(participants)[p.sessionId], p, trackType)]
      ensures trackType != "video" && trackType != "audio" ==> participants == old(participants)
    {
      if trackType == "video" || trackType == "audio" {
        var existing := participants[p.sessionId];
        participants := participants[p.sessionId := UpdatedParticipant(existing, p, trackType)];
      }
    }

    /** "joined-meeting": mark the session joined, record whether the room is
        fully public, and add the local participant. */
    method HandleJoinedMeeting(e: Option<JoinedMeetingEvent>, access: Access)
      requires Valid()
      modifies this
      ensures Valid()
      ensures issued == old(issued)
      ensures e.None? || !old(hasCallObject) ==> State() == old(State())
      ensures e.Some? && old(hasCallObject) ==>
                State() == old(State()).(
                  joined := true,
                  isPublic := access.Access? && access.level == "full",
                  participants := ApplyMembership(old(participants), Added(e.value.localParticipant)))
    {
      if e.None? || !hasCallObject {
        return;
      }
      joined := true;
      isPublic := access.Access? && access.level == "full";
      AddParticipant(e.value.localParticipant);
    }

    /** "participant-joined": add the remote participant. */
    method ParticipantJoined(e: Option<ParticipantEvent>)
      requires Valid()
      modifies this
      ensures Valid()
      ensures issued == old(issued)
      ensures e.None? ==> State() == old(State())
      ensures e.Some? ==>
                State() == old(State()).(
                  participants := ApplyMembership(old(participants), Added(e.value.participant)))
    {
      if e.None? {
        return;
      }
      AddParticipant(e.value.participant);
    }

    /** "track-started" and "track-stopped": ignored without a payload, without a
        participant, or before the local user has joined. */
    method HandleTrackStartedStopped(e: Option<TrackEvent>)
      requires Valid()
      requires e.Some? && e.value.participant.Some? && joined
               && (e.value.trackType == "video" || e.value.trackType == "audio")
               ==> e.value.participant.value.sessionId in participants
      modifies this
      ensures Valid()
      ensures issued == old(issued)
      ensures e.None? || e.value.participant.None? || !old(joined) ==> State() == old(State())
      ensures e.Some? && e.value.participant.Some? && old(joined) ==>
                var p, t := e.value.participant.value, e.value.trackType;
                State() == old(State()).(
                  participants :=
                    if t == "video" || t == "audio"
                    then old(participants)[p.sessionId := UpdatedParticipant(old(participants)[p.sessionId], p, t)]
                    else old(participants))
    {
      if e.None? || e.value.participant.None? || !joined {
        return;
      }
      UpdateTrack(e.value.participant.value, e.value.trackType);
    }

    /** "participant-left": remove that participant's entry, if any. */
    method HandleParticipantLeft(e: Option<ParticipantLeftEvent>)
      requires Valid()
      modifies this
      ensures Valid()
      ensures issued == old(issued)
      ensures e.None? ==> State() == old(State())
      ensures e.Some? ==>
                State() == old(State()).(
                  participants := ApplyMembership(old(participants), Removed(e.value.participant.sessionId)))
      ensures e.Some? ==>
                participants.Keys == old(participants).Keys - {e.value.participant.sessionId}
                && forall id :: id in participants ==> participants[id] == old(participants)[id]
    {
      if e.None? {
        return;
      }
      participants := participants - {e.value.participant.sessionId};
    }

    /** "error": record the message for display; nothing else changes. */
    method HandleError(e: Option<FatalErrorEvent>)
      requires Valid()
      modifies this
      ensures Valid()
      ensures issued == old(issued)
      ensures e.None? ==> State() == old(State())
      ensures e.Some? ==> State() == old(State()).(error := e.value.errorMsg)
    {
      if e.None? {
        return;
      }
      error := e.value.errorMsg;
    }

    /** "left-meeting": mark the session not joined, destroy the call object and
        tell the parent that the call has ended. */
    method HandleLeftMeeting(e: Option<NoPayloadEvent>)
      requires Valid()
      modifies this
      ensures Valid()
      ensures e.None? || !old(hasCallObject) ==> State() == old(State()) && issued == old(issued)
      ensures e.Some? && old(hasCallObject) ==>
                State() == old(State()).(joined := false)
                && issued == old(issued) + [Destroy, EmitCallEnded]
    {
      if e.None? || !hasCallObject {
        return;
      }
      joined := false;
      issued := issued + [Destroy];
      issued := issued + [EmitCallEnded];
    }

    /** Clear the error and ask the SDK to leave; teardown follows on "left-meeting". */
    method LeaveCall()
      requires Valid()
      modifies this
      ensures Valid()
      ensures State() == old(State()).(error := "")
      ensures issued == if old(hasCallObject) then old(issued) + [Leave] else old(issued)
    {
      error := "";
      if !hasCallObject {
        return;
      }
      issued := issued + [Leave];
    }

    /** Turn the camera to the opposite of what the SDK reports (`localVideo` is
        the answer of the SDK's query); nothing happens before joining. */
    method ToggleLocalVideo(localVideo: bool)
      requires Valid()
      modifies this
      ensures Valid()
      ensures State() == old(State())
      ensures issued == if old(joined) && old(hasCallObject)
                        then old(issued) + [SetLocalVideo(!localVideo)] else old(issued)
    {
      if !joined || !hasCallObject {
        return;
      }
      issued := issued + [SetLocalVideo(!localVideo)];
    }

    /** Turn the microphone to the opposite of what the SDK reports (`localAudio`
        is the answer of the SDK's query); nothing happens before joining. */
    method ToggleLocalAudio(localAudio: bool)
      requires Valid()
      modifies this
      ensures Valid()
      ensures State() == old(State())
      ensures issued == if old(joined) && old(hasCallObject)
                        then old(issued) + [SetLocalAudio(!localAudio)] else old(issued)
    {
      if !joined || !hasCallObject {
        return;
      }
      issued := issued + [SetLocalAudio(!localAudio)];
    }
  }

  /** A session: Alice joins, Bob joins with playable video, Bob's video stops,
      Bob leaves.  Shows what callers can conclude from the contracts alone. */
  method AliceAndBob(aliceTracks: Tracks, bobAudio: Option<TrackInfo>, cam: MediaTrack)
  {
    var call := new CallComponent("R1", "Alice");
    call.Init();
    var alice := DailyParticipant("a", "Alice", true, aliceTracks);
    call.HandleJoinedMeeting(Some(JoinedMeetingEvent(alice)), Access("full"));
    assert call.joined && call.isPublic;

    var bob := DailyParticipant("b", "Bob", false, Tracks(Some(TrackInfo(Some(cam), "playable")), bobAudio));
    call.ParticipantJoined(Some(ParticipantEvent(bob)));
    assert call.participants.Keys == {"a", "b"};
    assert call.participants["a"].videoReady == IsReady(aliceTracks.video);
    assert call.participants["b"].videoReady;
    var bobAudioTrack := call.participants["b"].audioTrack;

    var bobStopped := bob.(tracks := bob.tracks.(video := Some(TrackInfo(Some(cam), "off"))));
    call.HandleTrackStartedStopped(Some(TrackEvent(Some(bobStopped), "video")));
    assert !call.participants["b"].videoReady;
    assert call.participants["b"].audioTrack == bobAudioTrack;
    assert call.participants["b"].videoTrack == Some(cam);

    call.HandleParticipantLeft(Some(ParticipantLeftEvent(bob)));
    assert call.participants.Keys == {"a"};
    assert call.issued == [Join("Alice", "R1")];
  }
}
