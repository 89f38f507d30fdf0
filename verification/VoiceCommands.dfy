/**
 What each command of the voice service decides to write and to answer (internal/app/voiceapp/service.go).
 A refused command answers an error and writes nothing. New ids and the order in which a scan meets the
 sessions it acts on are parameters; `now` is the one instant a command reads.
 */
module VoiceCommands {
  import opened Base
  import Text
  import opened VoiceTypes
  import opened VoiceState

  /** The trimmed, non-blank values in order of first appearance. */
  function UniqueStrings(values: seq<string>): seq<string> {
    if values == [] then []
    else
      var earlier := UniqueStrings(values[..|values| - 1]);
      var value := Text.TrimSpace(values[|values| - 1]);
      if value == "" || value in earlier then earlier else earlier + [value]
  }

  // ----- Rooms -----

  function NewRoom(cfg: ServiceConfig, roomId: string, title: string, ownerId: string, adminIds: seq<string>,
                   moderatorIds: seq<string>, streamId: string, passiveMode: string, now: Time): Room {
    Room(roomId, Text.TrimSpace(title), Draft, ownerId, UniqueStrings(adminIds), UniqueStrings(moderatorIds),
         "lk_" + roomId, streamId, passiveMode, cfg.recordingEnabled, "", None, None, "", "", now, now)
  }

  function CreateRoom(cfg: ServiceConfig, title: string, ownerId: string, adminIds: seq<string>,
                      moderatorIds: seq<string>, roomId: string, streamId: string, passiveMode: string, now: Time)
    : (Change, Result<Room, Error>)
  {
    if Text.TrimSpace(title) == "" || Text.TrimSpace(ownerId) == "" then (Nothing, Err(InvalidArgument))
    else
      var room := NewRoom(cfg, roomId, title, ownerId, adminIds, moderatorIds, streamId, passiveMode, now);
      (PutRoom(room, Event(RoomCreated, roomId, ownerId, "", now, OfRoom(room)), []), Ok(room))
  }

  /** The room, if it exists and the actor may moderate it. */
  function ModeratedRoom(s: State, roomId: string, actor: string): Result<Room, Error> {
    if roomId !in s.rooms then Err(RoomNotFound)
    else if !RoleCanModerate(ResolveRole(s.rooms[roomId], actor)) then Err(PermissionDenied)
    else Ok(s.rooms[roomId])
  }

  function StartRoom(s: State, roomId: string, actor: string, now: Time): (Change, Result<Room, Error>) {
    var found := ModeratedRoom(s, roomId, actor);
    if found.Err? then (Nothing, Err(found.error))
    else if found.value.status != Draft && found.value.status != Scheduled then (Nothing, Err(InvalidRoomState))
    else
      var room := found.value.(status := Live, startedAt := Some(now), updatedAt := now);
      (PutRoom(room, Event(RoomStarted, room.id, actor, "", now, OfRoom(room)), []), Ok(room))
  }

  const CLOSE_ROOM_SESSIONS := "close_room_sessions"
  const GENERATE_ROOM_REPORT := "generate_room_report"
  const EXPIRE_LISTENER_SESSIONS := "expire_stale_listener_sessions"

  function CloseKey(roomId: string): string {
    "room:" + roomId + ":close_sessions:v1"
  }

  function ReportKey(roomId: string): string {
    "room:" + roomId + ":generate_report:v1"
  }

  /** The two jobs a finished room asks for, on behalf of whoever finished it. */
  function FinishJobs(roomId: string, actor: string): seq<JobRequest> {
    [JobRequest(CLOSE_ROOM_SESSIONS, CloseKey(roomId), roomId, actor),
     JobRequest(GENERATE_ROOM_REPORT, ReportKey(roomId), roomId, actor)]
  }

  function FinishRoom(s: State, roomId: string, actor: string, reason: string, now: Time): (Change, Result<Room, Error>) {
    var found := ModeratedRoom(s, roomId, actor);
    if found.Err? then (Nothing, Err(found.error))
    else if found.value.status != Live && found.value.status != Scheduled then (Nothing, Err(InvalidRoomState))
    else
      var room := found.value.(status := Finished, endedAt := Some(now), endedBy := actor,
                               endReason := Text.TrimSpace(reason), updatedAt := now);
      (PutRoom(room, Event(RoomFinished, room.id, actor, "", now, OfRoom(room)), FinishJobs(room.id, actor)), Ok(room))
  }

  // ----- Joining and listening -----

  /** The lists of the room first, then an approved speaker request. */
  function RoleOf(s: State, room: Room, userId: string): Role {
    var role := ResolveRole(room, userId);
    if role != Listener then role
    else if RequestsOf(s.requests, room.id, userId, RequestApproved) != {} then Speaker
    else Listener
  }

  function PermissionsFor(role: Role): Permissions {
    Permissions(RoleUsesLiveKit(role), RoleCanModerate(role), RoleCanModerate(role), RoleCanModerate(role))
  }

  function ChannelsFor(roomId: string, userId: string, role: Role): seq<string> {
    ["room:" + roomId, "user:" + userId] + (if RoleCanModerate(role) then ["room:" + roomId + ":admins"] else [])
  }

  function SpeakerResult(room: Room, userId: string, role: Role): JoinResult {
    JoinResult(room.id, role, LiveKitPath, PermissionsFor(role), None,
               Some(SpeakerDescriptor(room.liveKitRoomName, userId)), ChannelsFor(room.id, userId, role))
  }

  function ListenerResult(room: Room, userId: string, role: Role, sessionId: string): JoinResult {
    JoinResult(room.id, role, LLHLSPath, PermissionsFor(role), Some(sessionId), None, ChannelsFor(room.id, userId, role))
  }

  function JoinRoom(s: State, roomId: string, userId: string, sessionId: string, now: Time)
    : (Change, Result<JoinResult, Error>)
  {
    if roomId !in s.rooms then (Nothing, Err(RoomNotFound))
    else if s.rooms[roomId].status != Live then (Nothing, Err(RoomNotLive))
    else
      var room := s.rooms[roomId];
      var role := RoleOf(s, room, userId);
      if RoleUsesLiveKit(role) then
        (PutSpeaker(ParticipantSession(sessionId, room.id, userId, role, userId, ParticipantActive, now)),
         Ok(SpeakerResult(room, userId, role)))
      else
        var session := ListenerSession(sessionId, room.id, userId, SessionActive, room.passiveMode, now, None, now,
                                       "", "", "", now, now);
        (PutListener(session, Event(SessionStarted, room.id, userId, "", now, OfSession(session))),
         Ok(ListenerResult(room, userId, role, sessionId)))
  }

  function CreateSpeakerSession(s: State, roomId: string, userId: string, sessionId: string, now: Time)
    : (Change, Result<JoinResult, Error>)
  {
    if roomId !in s.rooms then (Nothing, Err(RoomNotFound))
    else if s.rooms[roomId].status != Live then (Nothing, Err(RoomNotLive))
    else
      var room := s.rooms[roomId];
      var role := RoleOf(s, room, userId);
      if !RoleUsesLiveKit(role) then (Nothing, Err(PermissionDenied))
      else
        (PutSpeaker(ParticipantSession(sessionId, room.id, userId, role, userId, ParticipantActive, now)),
         Ok(SpeakerResult(room, userId, role)))
  }

  /** The session, if it exists and belongs to the room and user named. */
  function OwnSession(s: State, roomId: string, sessionId: string, userId: string): Result<ListenerSession, Error> {
    if sessionId !in s.sessions then Err(ListenerSessionNotFound)
    else if s.sessions[sessionId].roomId != roomId || s.sessions[sessionId].userId != userId then Err(PermissionDenied)
    else Ok(s.sessions[sessionId])
  }

  function Heartbeat(s: State, roomId: string, sessionId: string, userId: string, now: Time)
    : (Change, Result<ListenerSession, Error>)
  {
    var found := OwnSession(s, roomId, sessionId, userId);
    if found.Err? then (Nothing, Err(found.error))
    else if found.value.status != SessionActive then (Nothing, Err(ListenerSessionNotFound))
    else
      var session := found.value.(lastHeartbeatAt := now, updatedAt := now);
      (PutListener(session, Event(HeartbeatReceived, session.roomId, userId, "", now, OfSession(session))), Ok(session))
  }

  /** Leaving has no guard on the status: a session that already ended is overwritten. */
  function LeaveListener(s: State, roomId: string, sessionId: string, userId: string, leaveType: string, now: Time)
    : (Change, Result<ListenerSession, Error>)
  {
    var found := OwnSession(s, roomId, sessionId, userId);
    if found.Err? then (Nothing, Err(found.error))
    else
      var session := found.value.(status := SessionLeft, leftAt := Some(now), leaveType := Text.TrimSpace(leaveType),
                                  updatedAt := now);
      (EndListeners([session], [Event(SessionLeftEvent, session.roomId, userId, "", now, OfSession(session))]),
       Ok(session))
  }

  /** `order` lists each member of `ids` once. */
  predicate Lists(order: seq<string>, ids: set<string>) {
    && (forall i, j :: 0 <= i < j < |order| ==> order[i] != order[j])
    && (forall i :: 0 <= i < |order| ==> order[i] in ids)
    && (forall id :: id in ids ==> id in order)
  }

  function RemovedBy(session: ListenerSession, actor: string, reason: string, now: Time): ListenerSession {
    session.(status := SessionRemoved, leftAt := Some(now), removedBy := actor, removeReason := Text.TrimSpace(reason),
             updatedAt := now)
  }

  function RemoveEach(s: State, order: seq<string>, actor: string, reason: string, now: Time): seq<ListenerSession>
    requires forall i :: 0 <= i < |order| ==> order[i] in s.sessions
  {
    seq(|order|, i requires 0 <= i < |order| => RemovedBy(s.sessions[order[i]], actor, reason, now))
  }

  /** The event is stamped anew once the records are saved; `told` is that instant. */
  function RemoveParticipant(s: State, roomId: string, actor: string, target: string, reason: string, order: seq<string>,
                             now: Time, told: Time): (Change, Result<(), Error>)
    requires Lists(order, ActiveOf(s.sessions, roomId, target))
  {
    var found := ModeratedRoom(s, roomId, actor);
    if found.Err? then (Nothing, Err(found.error))
    else
      (EndListeners(RemoveEach(s, order, actor, reason, now),
                    [Event(UserRemoved, roomId, actor, target, told, OfTarget(target, reason))]), Ok(()))
  }

  // ----- Expiry and room close -----

  function EffectiveLimit(limit: int): (n: nat)
    ensures n > 0
  {
    if limit <= 0 then 100 else limit
  }

  /** `order` lists as many different stale sessions as there are, up to the limit. */
  predicate ListsStale(order: seq<string>, stale: set<string>, limit: nat) {
    && (forall i, j :: 0 <= i < j < |order| ==> order[i] != order[j])
    && (forall i :: 0 <= i < |order| ==> order[i] in stale)
    && |order| == Min(limit, |stale|)
  }

  function ExpiredAt(session: ListenerSession, now: Time): ListenerSession {
    session.(status := SessionExpired, leftAt := Some(now), leaveType := "heartbeat_timeout", updatedAt := now)
  }

  function ExpireEach(s: State, order: seq<string>, now: Time): seq<ListenerSession>
    requires forall i :: 0 <= i < |order| ==> order[i] in s.sessions
  {
    seq(|order|, i requires 0 <= i < |order| => ExpiredAt(s.sessions[order[i]], now))
  }

  function ExpiryEvents(ended: seq<ListenerSession>, now: Time): seq<Event> {
    seq(|ended|, i requires 0 <= i < |ended| =>
      Event(SessionExpiredEvent, ended[i].roomId, "", ended[i].userId, now, OfSession(ended[i])))
  }

  /** Expires the listed stale sessions; answers how many. */
  function ExpireStale(s: State, cutoff: Time, limit: int, order: seq<string>, now: Time): (Change, nat)
    requires ListsStale(order, Stale(s.sessions, cutoff), EffectiveLimit(limit))
  {
    var ended := ExpireEach(s, order, now);
    (EndListeners(ended, ExpiryEvents(ended, now)), |order|)
  }

  function ClosedAt(session: ListenerSession, now: Time): ListenerSession {
    session.(status := SessionLeft, leftAt := Some(now), leaveType := "room_finished", updatedAt := now)
  }

  function CloseEach(s: State, order: seq<string>, now: Time): seq<ListenerSession>
    requires forall i :: 0 <= i < |order| ==> order[i] in s.sessions
  {
    seq(|order|, i requires 0 <= i < |order| => ClosedAt(s.sessions[order[i]], now))
  }

  /** Ends every active session of the room without telling the event log. */
  function CloseRoomSessions(s: State, roomId: string, order: seq<string>, now: Time): Change
    requires Lists(order, ActiveIn(s.sessions, roomId))
  {
    EndListeners(CloseEach(s, order, now), [])
  }

  // ----- Speaking -----

  function RequestToSpeak(s: State, roomId: string, userId: string, requestId: string, now: Time)
    : (Change, Result<SpeakerRequest, Error>)
  {
    if roomId !in s.rooms then (Nothing, Err(RoomNotFound))
    else if s.rooms[roomId].status != Live then (Nothing, Err(RoomNotLive))
    else if ActiveBlocks(s.blocks, roomId, userId) != {} then (Nothing, Err(SpeakerIsBlocked))
    else if RequestsOf(s.requests, roomId, userId, RequestPending) != {} then (Nothing, Err(Conflict))
    else
      var request := SpeakerRequest(requestId, roomId, userId, RequestPending, now, None, "", "");
      (PutRequest(request, Event(SpeakerRequested, roomId, userId, userId, now, OfRequest(request))), Ok(request))
  }

  function DecideRequest(s: State, roomId: string, requestId: string, actor: string, reason: string, approve: bool, now: Time)
    : (Change, Result<SpeakerRequest, Error>)
  {
    var found := ModeratedRoom(s, roomId, actor);
    if found.Err? then (Nothing, Err(found.error))
    else if requestId !in s.requests then (Nothing, Err(SpeakerRequestNotFound))
    else if s.requests[requestId].roomId != roomId || s.requests[requestId].status != RequestPending then
      (Nothing, Err(InvalidRoomState))
    else
      var request := s.requests[requestId].(status := if approve then RequestApproved else RequestDeclined,
                                            decidedAt := Some(now), decidedBy := actor,
                                            decisionReason := Text.TrimSpace(reason));
      (PutRequest(request, Event(if approve then SpeakerApproved else SpeakerDeclined, roomId, actor, request.userId, now,
                                 OfRequest(request))), Ok(request))
  }

  /** Revoking only publishes; nothing stored changes. */
  function RevokeSpeaker(s: State, roomId: string, actor: string, target: string, reason: string, now: Time)
    : (Change, Result<(), Error>)
  {
    var found := ModeratedRoom(s, roomId, actor);
    if found.Err? then (Nothing, Err(found.error))
    else (Tell(Event(SpeakerRevoked, roomId, actor, target, now, OfTarget(target, reason))), Ok(()))
  }

  /** `blockId` is an active block of the user, if there is one, and otherwise the id of the new block. */
  function BlockSpeaking(s: State, roomId: string, actor: string, target: string, reason: string, blockId: string, now: Time)
    : (Change, Result<SpeakingBlock, Error>)
    requires ActiveBlocks(s.blocks, roomId, target) != {} ==> blockId in ActiveBlocks(s.blocks, roomId, target)
  {
    var found := ModeratedRoom(s, roomId, actor);
    if found.Err? then (Nothing, Err(found.error))
    else if ActiveBlocks(s.blocks, roomId, target) != {} then (Nothing, Ok(s.blocks[blockId]))
    else
      var block := SpeakingBlock(blockId, roomId, target, actor, Text.TrimSpace(reason), now, "", None);
      (PutBlock(block, Event(SpeakerBlocked, roomId, actor, target, now, OfBlock(block))), Ok(block))
  }

  function UnblockSpeaking(s: State, roomId: string, actor: string, target: string, blockId: string, now: Time)
    : (Change, Result<SpeakingBlock, Error>)
    requires ActiveBlocks(s.blocks, roomId, target) != {} ==> blockId in ActiveBlocks(s.blocks, roomId, target)
  {
    var found := ModeratedRoom(s, roomId, actor);
    if found.Err? then (Nothing, Err(found.error))
    else if ActiveBlocks(s.blocks, roomId, target) == {} then (Nothing, Err(SpeakingBlockNotFound))
    else
      var block := s.blocks[blockId].(unblockedAt := Some(now), unblockedBy := actor);
      (PutBlock(block, Event(SpeakerUnblocked, roomId, actor, target, now, OfBlock(block))), Ok(block))
  }

  // ----- Recordings and reports -----

  const DAY: Time := 24 * 3600 * SECOND

  function StorageFor(cfg: ServiceConfig, roomId: string): StorageObject {
    StorageObject("s3", cfg.s3Bucket, cfg.s3Region, Text.TrimSlashes(cfg.s3RecordingsPrefix) + "/" + roomId + "/full.mp4",
                  "video/mp4")
  }

  function StartRecording(cfg: ServiceConfig, s: State, roomId: string, actor: string, recordingId: string, now: Time)
    : (Change, Result<Recording, Error>)
  {
    if !cfg.recordingEnabled then (Nothing, Err(RecordingDisabled))
    else
      var found := ModeratedRoom(s, roomId, actor);
      if found.Err? then (Nothing, Err(found.error))
      else if found.value.status != Live then (Nothing, Err(RoomNotLive))
      else
        var recording := Recording(recordingId, roomId, RecordingStarted, StorageFor(cfg, roomId), 0, now, None, None,
                                   now, now);
        var room := found.value.(activeRecordingId := recordingId, updatedAt := now);
        (PutRecording(recording, room, Event(RecordingStartedEvent, roomId, actor, "", now, OfRecording(recording))),
         Ok(recording))
  }

  /** Conversion of a duration to whole seconds truncates toward zero. */
  function WholeSeconds(d: Time): int {
    if d >= 0 then d / SECOND else -(-d / SECOND)
  }

  /** Stops the named recording, whatever its status, and clears the room's active one, whichever it is. */
  function StopRecording(cfg: ServiceConfig, s: State, roomId: string, recordingId: string, actor: string, now: Time)
    : (Change, Result<Recording, Error>)
  {
    var found := ModeratedRoom(s, roomId, actor);
    if found.Err? then (Nothing, Err(found.error))
    else if recordingId !in s.recordings then (Nothing, Err(RecordingNotFound))
    else if s.recordings[recordingId].roomId != roomId then (Nothing, Err(RecordingNotFound))
    else
      var stored := s.recordings[recordingId];
      var recording := stored.(
        status := RecordingCompleted,
        endedAt := Some(now),
        durationSeconds := WholeSeconds(now - stored.startedAt),
        expiresAt := if cfg.recordingRetentionDays > 0 then Some(now + cfg.recordingRetentionDays * DAY)
                     else stored.expiresAt,
        updatedAt := now);
      var room := found.value.(activeRecordingId := "", updatedAt := now);
      (PutRecording(recording, room, Event(RecordingCompletedEvent, roomId, actor, "", now, OfRecording(recording))),
       Ok(recording))
  }

  ghost function GenerateReport(s: State, roomId: string, actor: string, reportId: string, now: Time)
    : (Change, Result<Report, Error>)
  {
    var found := ModeratedRoom(s, roomId, actor);
    if found.Err? then (Nothing, Err(found.error))
    else
      var report := Report(reportId, roomId, StatsOf(s, roomId, now), now);
      (PutReport(report, Event(ReportCompleted, roomId, actor, "", now, OfReport(report))), Ok(report))
  }
}
