/**
 Runs of the voice service: any commands in any order, each one atomic, on a clock that never goes back and with
 ids never used before. Infrastructure calls succeed, so a command either is refused or runs to its end.
 */
module VoiceRuns {
  import opened Base
  import opened VoiceTypes
  import opened VoiceState
  import Do = VoiceCommands

  datatype Command =
    | CreateRoom(title: string, ownerId: string, adminIds: seq<string>, moderatorIds: seq<string>,
                 roomId: string, streamId: string, passiveMode: string)
    | StartRoom(roomId: string, actor: string)
    | FinishRoom(roomId: string, actor: string, reason: string)
    | JoinRoom(roomId: string, userId: string, sessionId: string)
    | CreateSpeakerSession(roomId: string, userId: string, sessionId: string)
    | Heartbeat(roomId: string, sessionId: string, userId: string)
    | LeaveListener(roomId: string, sessionId: string, userId: string, leaveType: string)
    | RemoveParticipant(roomId: string, actor: string, target: string, reason: string, order: seq<string>, lag: nat)
    | ExpireStale(cutoff: Time, limit: int, order: seq<string>)
    | CloseRoomSessions(roomId: string, order: seq<string>)
    | RequestToSpeak(roomId: string, userId: string, requestId: string)
    | DecideRequest(roomId: string, requestId: string, actor: string, reason: string, approve: bool)
    | RevokeSpeaker(roomId: string, actor: string, target: string, reason: string)
    | BlockSpeaking(roomId: string, actor: string, target: string, reason: string, blockId: string)
    | UnblockSpeaking(roomId: string, actor: string, target: string, blockId: string)
    | StartRecording(roomId: string, actor: string, recordingId: string)
    | StopRecording(roomId: string, recordingId: string, actor: string)
    | GenerateReport(roomId: string, actor: string, reportId: string)

  predicate Unused(s: State, id: string) {
    && id !in s.rooms && id !in s.sessions && id !in s.participants
    && id !in s.requests && id !in s.blocks && id !in s.recordings
  }

  /** Generated ids are a prefix and a ULID: never empty, and without a colon. */
  predicate NewId(s: State, id: string) {
    id != "" && ':' !in id && Unused(s, id)
  }

  /** The parameters that stand for generated ids and for the order of a scan are possible ones. */
  predicate Possible(s: State, cmd: Command) {
    match cmd
    case CreateRoom(_, _, _, _, roomId, _, _) => NewId(s, roomId)
    case JoinRoom(_, _, id) => NewId(s, id)
    case CreateSpeakerSession(_, _, id) => NewId(s, id)
    case RemoveParticipant(roomId, _, target, _, order, _) => Do.Lists(order, ActiveOf(s.sessions, roomId, target))
    case ExpireStale(cutoff, limit, order) =>
      Do.ListsStale(order, Stale(s.sessions, cutoff), Do.EffectiveLimit(limit))
    case CloseRoomSessions(roomId, order) => Do.Lists(order, ActiveIn(s.sessions, roomId))
    case RequestToSpeak(_, _, id) => NewId(s, id)
    case BlockSpeaking(roomId, _, target, _, id) =>
      if ActiveBlocks(s.blocks, roomId, target) != {} then id in ActiveBlocks(s.blocks, roomId, target) else NewId(s, id)
    case UnblockSpeaking(roomId, _, target, id) =>
      ActiveBlocks(s.blocks, roomId, target) != {} ==> id in ActiveBlocks(s.blocks, roomId, target)
    case StartRecording(_, _, id) => NewId(s, id)
    case _ => true
  }

  ghost function Decide(cfg: ServiceConfig, s: State, cmd: Command, now: Time): Change
    requires Possible(s, cmd)
  {
    match cmd
    case CreateRoom(title, ownerId, adminIds, moderatorIds, roomId, streamId, mode) =>
      Do.CreateRoom(cfg, title, ownerId, adminIds, moderatorIds, roomId, streamId, mode, now).0
    case StartRoom(roomId, actor) => Do.StartRoom(s, roomId, actor, now).0
    case FinishRoom(roomId, actor, reason) => Do.FinishRoom(s, roomId, actor, reason, now).0
    case JoinRoom(roomId, userId, id) => Do.JoinRoom(s, roomId, userId, id, now).0
    case CreateSpeakerSession(roomId, userId, id) => Do.CreateSpeakerSession(s, roomId, userId, id, now).0
    case Heartbeat(roomId, id, userId) => Do.Heartbeat(s, roomId, id, userId, now).0
    case LeaveListener(roomId, id, userId, leaveType) => Do.LeaveListener(s, roomId, id, userId, leaveType, now).0
    case RemoveParticipant(roomId, actor, target, reason, order, lag) =>
      Do.RemoveParticipant(s, roomId, actor, target, reason, order, now, now + lag).0
    case ExpireStale(cutoff, limit, order) => Do.ExpireStale(s, cutoff, limit, order, now).0
    case CloseRoomSessions(roomId, order) => Do.CloseRoomSessions(s, roomId, order, now)
    case RequestToSpeak(roomId, userId, id) => Do.RequestToSpeak(s, roomId, userId, id, now).0
    case DecideRequest(roomId, id, actor, reason, approve) => Do.DecideRequest(s, roomId, id, actor, reason, approve, now).0
    case RevokeSpeaker(roomId, actor, target, reason) => Do.RevokeSpeaker(s, roomId, actor, target, reason, now).0
    case BlockSpeaking(roomId, actor, target, reason, id) => Do.BlockSpeaking(s, roomId, actor, target, reason, id, now).0
    case UnblockSpeaking(roomId, actor, target, id) => Do.UnblockSpeaking(s, roomId, actor, target, id, now).0
    case StartRecording(roomId, actor, id) => Do.StartRecording(cfg, s, roomId, actor, id, now).0
    case StopRecording(roomId, id, actor) => Do.StopRecording(cfg, s, roomId, id, actor, now).0
    case GenerateReport(roomId, actor, id) => Do.GenerateReport(s, roomId, actor, id, now).0
  }

  ghost function Apply(cfg: ServiceConfig, s: State, cmd: Command, now: Time): State
    requires Possible(s, cmd)
  {
    Write(s, Decide(cfg, s, cmd, now))
  }

  predicate Empty(s: State) {
    && s.rooms == map[] && s.sessions == map[] && s.participants == map[] && s.requests == map[]
    && s.blocks == map[] && s.recordings == map[] && s.reports == map[] && s.events == []
    && (s.presence.Some? ==> s.presence.value == Presence(map[], map[]))
    && s.grants == [] && s.outbox == []
  }

  /** States linked by possible commands at non-decreasing instants; times[i] is when command i runs. */
  ghost predicate Run(cfg: ServiceConfig, ss: seq<State>, cmds: seq<Command>, times: seq<Time>) {
    && |ss| == |cmds| + 1 && |times| == |cmds|
    && Empty(ss[0])
    && (forall i :: 0 <= i < |cmds| ==> Possible(ss[i], cmds[i]) && ss[i + 1] == Apply(cfg, ss[i], cmds[i], times[i]))
    && (forall i, j :: 0 <= i <= j < |times| ==> times[i] <= times[j])
  }

  // ----- What any command may write -----

  /** Every record is filed under its own id. */
  predicate Keyed(s: State) {
    && (forall id :: id in s.rooms ==> s.rooms[id].id == id)
    && (forall id :: id in s.sessions ==> s.sessions[id].id == id)
    && (forall id :: id in s.participants ==> s.participants[id].id == id)
    && (forall id :: id in s.requests ==> s.requests[id].id == id)
    && (forall id :: id in s.blocks ==> s.blocks[id].id == id)
    && (forall id :: id in s.recordings ==> s.recordings[id].id == id)
  }

  predicate CanModerate(s: State, roomId: string, userId: string) {
    roomId in s.rooms && RoleCanModerate(ResolveRole(s.rooms[roomId], userId))
  }

  /** A room is created as a draft, or moves one stage on, keeping everything but the fields of that stage. */
  predicate LegalRoom(s: State, room: Room, e: Event, jobs: seq<JobRequest>, now: Time) {
    && e.roomId == room.id && e.payload == OfRoom(room)
    && match e.eventType
       case RoomCreated =>
         && room.id !in s.rooms && ':' !in room.id && room.status == Draft && jobs == []
         && room.startedAt.None? && room.endedAt.None? && room.activeRecordingId == ""
       case RoomStarted =>
         && CanModerate(s, room.id, e.actorUserId) && s.rooms[room.id].status in {Draft, Scheduled} && jobs == []
         && room == s.rooms[room.id].(status := Live, startedAt := Some(now), updatedAt := now)
       case RoomFinished =>
         && CanModerate(s, room.id, e.actorUserId) && s.rooms[room.id].status in {Live, Scheduled}
         && room == s.rooms[room.id].(status := Finished, endedAt := Some(now), endedBy := e.actorUserId,
                                      endReason := room.endReason, updatedAt := now)
         && jobs == Do.FinishJobs(room.id, e.actorUserId)
       case _ => false
  }

  predicate LegalRecording(s: State, recording: Recording, room: Room, e: Event, now: Time) {
    && CanModerate(s, room.id, e.actorUserId) && recording.roomId == room.id
    && room == s.rooms[room.id].(activeRecordingId := room.activeRecordingId, updatedAt := now)
    && recording.updatedAt == now
    && e.roomId == room.id && e.payload == OfRecording(recording)
    && match e.eventType
       case RecordingStartedEvent =>
         && recording.id !in s.recordings && recording.id != "" && recording.status == RecordingStarted
         && room.activeRecordingId == recording.id
       case RecordingCompletedEvent =>
         && recording.id in s.recordings && s.recordings[recording.id].roomId == room.id
         && recording.status == RecordingCompleted && room.activeRecordingId == ""
       case _ => false
  }

  predicate LegalSpeaker(s: State, p: ParticipantSession) {
    && p.id !in s.participants && p.status == ParticipantActive
    && p.roomId in s.rooms && s.rooms[p.roomId].status == Live
    && p.role == Do.RoleOf(s, s.rooms[p.roomId], p.userId) && RoleUsesLiveKit(p.role)
  }

  predicate LegalListener(s: State, session: ListenerSession, e: Event, now: Time) {
    && session.status == SessionActive && session.lastHeartbeatAt == now
    && e.roomId == session.roomId && e.actorUserId == session.userId && e.payload == OfSession(session)
    && match e.eventType
       case SessionStarted =>
         && session.id !in s.sessions && session.leftAt.None? && session.joinedAt == now
         && session.roomId in s.rooms && s.rooms[session.roomId].status == Live
         && Do.RoleOf(s, s.rooms[session.roomId], session.userId) == Listener
       case HeartbeatReceived =>
         && session.id in s.sessions && s.sessions[session.id].status == SessionActive
         && session == s.sessions[session.id].(lastHeartbeatAt := now, updatedAt := now)
       case _ => false
  }

  /** `session` is `before` ended at `now`: only the fields about leaving differ. */
  predicate EndOf(before: ListenerSession, session: ListenerSession, now: Time) {
    && session.status != SessionActive && session.leftAt == Some(now)
    && session == before.(status := session.status, leftAt := session.leftAt, leaveType := session.leaveType,
                          removedBy := session.removedBy, removeReason := session.removeReason, updatedAt := now)
  }

  predicate LegalEnds(s: State, ended: seq<ListenerSession>, told: seq<Event>, now: Time) {
    && (forall i :: 0 <= i < |ended| ==> ended[i].id in s.sessions && EndOf(s.sessions[ended[i].id], ended[i], now))
    && (forall i, j :: 0 <= i < j < |ended| ==> ended[i].id != ended[j].id)
    && (forall i :: 0 <= i < |told| ==>
          && told[i].eventType in {SessionLeftEvent, SessionExpiredEvent, UserRemoved}
          && (told[i].payload.OfSession? || told[i].payload.OfTarget?))
  }

  predicate LegalRequest(s: State, request: SpeakerRequest, e: Event, now: Time) {
    && e.roomId == request.roomId && e.targetUserId == request.userId && e.payload == OfRequest(request)
    && match e.eventType
       case SpeakerRequested =>
         && request.id !in s.requests && request.status == RequestPending && request.decidedAt.None?
         && request.roomId in s.rooms && s.rooms[request.roomId].status == Live
         && ActiveBlocks(s.blocks, request.roomId, request.userId) == {}
         && RequestsOf(s.requests, request.roomId, request.userId, RequestPending) == {}
       case SpeakerApproved => Decides(s, request, RequestApproved, e.actorUserId, now)
       case SpeakerDeclined => Decides(s, request, RequestDeclined, e.actorUserId, now)
       case _ => false
  }

  predicate Decides(s: State, request: SpeakerRequest, status: RequestStatus, actor: string, now: Time) {
    && request.id in s.requests && s.requests[request.id].status == RequestPending
    && CanModerate(s, request.roomId, actor)
    && request == s.requests[request.id].(status := status, decidedAt := Some(now), decidedBy := actor,
                                          decisionReason := request.decisionReason)
  }

  predicate LegalBlock(s: State, block: SpeakingBlock, e: Event, now: Time) {
    && CanModerate(s, block.roomId, e.actorUserId)
    && e.roomId == block.roomId && e.targetUserId == block.userId && e.payload == OfBlock(block)
    && match e.eventType
       case SpeakerBlocked =>
         block.id !in s.blocks && block.unblockedAt.None? && ActiveBlocks(s.blocks, block.roomId, block.userId) == {}
       case SpeakerUnblocked =>
         && block.id in s.blocks && s.blocks[block.id].unblockedAt.None?
         && block == s.blocks[block.id].(unblockedAt := Some(now), unblockedBy := e.actorUserId)
       case _ => false
  }

  ghost predicate LegalReport(s: State, report: Report, e: Event, now: Time) {
    && CanModerate(s, report.roomId, e.actorUserId)
    && report.summary == StatsOf(s, report.roomId, now)
    && e.eventType == ReportCompleted && e.roomId == report.roomId && e.payload == OfReport(report)
  }

  ghost predicate Legal(s: State, change: Change, now: Time) {
    match change
    case Nothing => true
    case PutRoom(room, e, jobs) => LegalRoom(s, room, e, jobs, now)
    case PutRecording(recording, room, e) => LegalRecording(s, recording, room, e, now)
    case PutSpeaker(p) => LegalSpeaker(s, p)
    case PutListener(session, e) => LegalListener(s, session, e, now)
    case EndListeners(ended, told) => LegalEnds(s, ended, told, now)
    case PutRequest(request, e) => LegalRequest(s, request, e, now)
    case PutBlock(block, e) => LegalBlock(s, block, e, now)
    case PutReport(report, e) => LegalReport(s, report, e, now)
    case Tell(e) => e.eventType == SpeakerRevoked && e.payload.OfTarget?
  }

  lemma StartRoomIsLegal(s: State, roomId: string, actor: string, now: Time)
    requires Keyed(s)
    ensures Legal(s, Do.StartRoom(s, roomId, actor, now).0, now)
  {
  }

  lemma FinishRoomIsLegal(s: State, roomId: string, actor: string, reason: string, now: Time)
    requires Keyed(s)
    ensures Legal(s, Do.FinishRoom(s, roomId, actor, reason, now).0, now)
  {
  }

  lemma JoinRoomIsLegal(s: State, roomId: string, userId: string, id: string, now: Time)
    requires Keyed(s) && NewId(s, id)
    ensures Legal(s, Do.JoinRoom(s, roomId, userId, id, now).0, now)
  {
  }

  lemma SpeakerSessionIsLegal(s: State, roomId: string, userId: string, id: string, now: Time)
    requires Keyed(s) && NewId(s, id)
    ensures Legal(s, Do.CreateSpeakerSession(s, roomId, userId, id, now).0, now)
  {
  }

  lemma HeartbeatIsLegal(s: State, roomId: string, id: string, userId: string, now: Time)
    requires Keyed(s)
    ensures Legal(s, Do.Heartbeat(s, roomId, id, userId, now).0, now)
  {
  }

  lemma LeaveIsLegal(s: State, roomId: string, id: string, userId: string, leaveType: string, now: Time)
    requires Keyed(s)
    ensures Legal(s, Do.LeaveListener(s, roomId, id, userId, leaveType, now).0, now)
  {
  }

  lemma RemoveIsLegal(s: State, roomId: string, actor: string, target: string, reason: string, order: seq<string>,
                      now: Time, told: Time)
    requires Keyed(s) && Do.Lists(order, ActiveOf(s.sessions, roomId, target))
    ensures Legal(s, Do.RemoveParticipant(s, roomId, actor, target, reason, order, now, told).0, now)
  {
  }

  lemma ExpiryIsLegal(s: State, cutoff: Time, limit: int, order: seq<string>, now: Time)
    requires Keyed(s) && Do.ListsStale(order, Stale(s.sessions, cutoff), Do.EffectiveLimit(limit))
    ensures Legal(s, Do.ExpireStale(s, cutoff, limit, order, now).0, now)
  {
  }

  lemma CloseIsLegal(s: State, roomId: string, order: seq<string>, now: Time)
    requires Keyed(s) && Do.Lists(order, ActiveIn(s.sessions, roomId))
    ensures Legal(s, Do.CloseRoomSessions(s, roomId, order, now), now)
  {
  }

  lemma RequestIsLegal(s: State, roomId: string, userId: string, id: string, now: Time)
    requires Keyed(s) && NewId(s, id)
    ensures Legal(s, Do.RequestToSpeak(s, roomId, userId, id, now).0, now)
  {
  }

  lemma DecisionIsLegal(s: State, roomId: string, id: string, actor: string, reason: string, approve: bool, now: Time)
    requires Keyed(s)
    ensures Legal(s, Do.DecideRequest(s, roomId, id, actor, reason, approve, now).0, now)
  {
  }

  lemma BlockIsLegal(s: State, roomId: string, actor: string, target: string, reason: string, id: string, now: Time)
    requires Keyed(s)
    requires if ActiveBlocks(s.blocks, roomId, target) != {} then id in ActiveBlocks(s.blocks, roomId, target) else NewId(s, id)
    ensures Legal(s, Do.BlockSpeaking(s, roomId, actor, target, reason, id, now).0, now)
  {
  }

  lemma UnblockIsLegal(s: State, roomId: string, actor: string, target: string, id: string, now: Time)
    requires Keyed(s)
    requires ActiveBlocks(s.blocks, roomId, target) != {} ==> id in ActiveBlocks(s.blocks, roomId, target)
    ensures Legal(s, Do.UnblockSpeaking(s, roomId, actor, target, id, now).0, now)
  {
  }

  lemma RecordingStartIsLegal(cfg: ServiceConfig, s: State, roomId: string, actor: string, id: string, now: Time)
    requires Keyed(s) && NewId(s, id)
    ensures Legal(s, Do.StartRecording(cfg, s, roomId, actor, id, now).0, now)
  {
  }

  lemma RecordingStopIsLegal(cfg: ServiceConfig, s: State, roomId: string, id: string, actor: string, now: Time)
    requires Keyed(s)
    ensures Legal(s, Do.StopRecording(cfg, s, roomId, id, actor, now).0, now)
  {
  }

  lemma CreateRoomIsLegal(cfg: ServiceConfig, s: State, title: string, ownerId: string, adminIds: seq<string>,
                          moderatorIds: seq<string>, roomId: string, streamId: string, mode: string, now: Time)
    requires NewId(s, roomId)
    ensures Legal(s, Do.CreateRoom(cfg, title, ownerId, adminIds, moderatorIds, roomId, streamId, mode, now).0, now)
  {
  }

  lemma RevokeIsLegal(s: State, roomId: string, actor: string, target: string, reason: string, now: Time)
    ensures Legal(s, Do.RevokeSpeaker(s, roomId, actor, target, reason, now).0, now)
  {
  }

  lemma ReportIsLegal(s: State, roomId: string, actor: string, id: string, now: Time)
    ensures Legal(s, Do.GenerateReport(s, roomId, actor, id, now).0, now)
  {
    hide StatsOf;
  }

  /** Whatever a command decides is legal; the other laws of the service are proved of legal changes. */
  lemma DecisionsAreLegal(cfg: ServiceConfig, s: State, cmd: Command, now: Time)
    requires Keyed(s) && Possible(s, cmd)
    ensures Legal(s, Decide(cfg, s, cmd, now), now)
  {
    hide Do.CreateRoom, Do.RevokeSpeaker, Do.GenerateReport, Legal, Keyed, NewId, Do.Lists, Do.ListsStale,
         ActiveIn, ActiveOf, Stale, ActiveBlocks;
    hide Do.StartRoom, Do.FinishRoom, Do.JoinRoom, Do.CreateSpeakerSession, Do.Heartbeat, Do.LeaveListener,
         Do.RemoveParticipant, Do.ExpireStale, Do.CloseRoomSessions, Do.RequestToSpeak, Do.DecideRequest,
         Do.BlockSpeaking, Do.UnblockSpeaking, Do.StartRecording, Do.StopRecording;
    match cmd
    case CreateRoom(title, ownerId, adminIds, moderatorIds, roomId, streamId, mode) =>
      CreateRoomIsLegal(cfg, s, title, ownerId, adminIds, moderatorIds, roomId, streamId, mode, now);
    case StartRoom(roomId, actor) => StartRoomIsLegal(s, roomId, actor, now);
    case FinishRoom(roomId, actor, reason) => FinishRoomIsLegal(s, roomId, actor, reason, now);
    case JoinRoom(roomId, userId, id) => JoinRoomIsLegal(s, roomId, userId, id, now);
    case CreateSpeakerSession(roomId, userId, id) => SpeakerSessionIsLegal(s, roomId, userId, id, now);
    case Heartbeat(roomId, id, userId) => HeartbeatIsLegal(s, roomId, id, userId, now);
    case LeaveListener(roomId, id, userId, leaveType) => LeaveIsLegal(s, roomId, id, userId, leaveType, now);
    case RemoveParticipant(roomId, actor, target, reason, order, lag) =>
      RemoveIsLegal(s, roomId, actor, target, reason, order, now, now + lag);
    case ExpireStale(cutoff, limit, order) => ExpiryIsLegal(s, cutoff, limit, order, now);
    case CloseRoomSessions(roomId, order) => CloseIsLegal(s, roomId, order, now);
    case RequestToSpeak(roomId, userId, id) => RequestIsLegal(s, roomId, userId, id, now);
    case DecideRequest(roomId, id, actor, reason, approve) => DecisionIsLegal(s, roomId, id, actor, reason, approve, now);
    case RevokeSpeaker(roomId, actor, target, reason) => RevokeIsLegal(s, roomId, actor, target, reason, now);
    case BlockSpeaking(roomId, actor, target, reason, id) => BlockIsLegal(s, roomId, actor, target, reason, id, now);
    case UnblockSpeaking(roomId, actor, target, id) => UnblockIsLegal(s, roomId, actor, target, id, now);
    case StartRecording(roomId, actor, id) => RecordingStartIsLegal(cfg, s, roomId, actor, id, now);
    case StopRecording(roomId, id, actor) => RecordingStopIsLegal(cfg, s, roomId, id, actor, now);
    case GenerateReport(roomId, actor, id) => ReportIsLegal(s, roomId, actor, id, now);
  }
}
