/**
 The service as a table: when each command has an effect and which records and events it then leaves, said of the
 records alone and not of the steps by which the service gets there. Presence sets have laws of their own.
 */
module Reference {
  import opened Base
  import Text
  import opened VoiceTypes
  import opened VoiceState
  import opened VoiceRuns
  import VoiceLaws
  import opened Answers
  import Do = VoiceCommands

  // ----- The table -----

  /** A room saved with an event that carries it. */
  function Saved(s: State, room: Room, what: EventType, actor: string, now: Time): State {
    s.(rooms := s.rooms[room.id := room], events := s.events + [Event(what, room.id, actor, "", now, OfRoom(room))])
  }

  /** A recording and its room saved with an event that carries the recording. */
  function Recorded(s: State, recording: Recording, room: Room, what: EventType, actor: string, now: Time): State {
    s.(recordings := s.recordings[recording.id := recording], rooms := s.rooms[room.id := room],
       events := s.events + [Event(what, room.id, actor, "", now, OfRecording(recording))])
  }

  function Asked(s: State, request: SpeakerRequest, what: EventType, actor: string, now: Time): State {
    s.(requests := s.requests[request.id := request],
       events := s.events + [Event(what, request.roomId, actor, request.userId, now, OfRequest(request))])
  }

  function Told(s: State, block: SpeakingBlock, what: EventType, actor: string, now: Time): State {
    s.(blocks := s.blocks[block.id := block],
       events := s.events + [Event(what, block.roomId, actor, block.userId, now, OfBlock(block))])
  }

  function Heard(s: State, session: ListenerSession, what: EventType, now: Time): State {
    s.(sessions := s.sessions[session.id := session],
       events := s.events + [Event(what, session.roomId, session.userId, "", now, OfSession(session))])
  }

  /** Whoever is on the room's lists speaks under the role listed first, anyone else as a speaker. */
  function SpeakingRole(room: Room, userId: string): Role {
    if userId == "" then Speaker
    else if userId == room.ownerId then Owner
    else if userId in room.adminIds then Admin
    else if userId in room.moderatorIds then Moderator
    else Speaker
  }

  function Speaking(s: State, roomId: string, userId: string, id: string, now: Time): State
    requires roomId in s.rooms
  {
    var role := SpeakingRole(s.rooms[roomId], userId);
    var session := ParticipantSession(id, roomId, userId, role, userId, ParticipantActive, now);
    s.(participants := s.participants[id := session],
       grants := s.grants + [Grant(roomId, userId, role, |s.events|)])
  }

  /** What a removal, an expiry run and a room close make of a session they end. */
  function Left(session: ListenerSession, status: SessionStatus, now: Time): ListenerSession {
    session.(status := status, leftAt := Some(now), updatedAt := now)
  }

  function Expired(session: ListenerSession, now: Time): ListenerSession {
    Left(session, SessionExpired, now).(leaveType := "heartbeat_timeout")
  }

  ghost function Expected(cfg: ServiceConfig, s: State, cmd: Command, now: Time): State
    requires Possible(s, cmd)
  {
    match cmd
    case CreateRoom(title, ownerId, adminIds, moderatorIds, roomId, streamId, mode) =>
      if Text.AllSpace(title) || Text.AllSpace(ownerId) then s
      else
        Saved(s, Room(roomId, Text.TrimSpace(title), Draft, ownerId, Do.UniqueStrings(adminIds),
                      Do.UniqueStrings(moderatorIds), "lk_" + roomId, streamId, mode, cfg.recordingEnabled, "",
                      None, None, "", "", now, now), RoomCreated, ownerId, now)
    case StartRoom(roomId, actor) =>
      if Moderates(s, roomId, actor) && InStage(s, roomId, {Draft, Scheduled}) then
        Saved(s, s.rooms[roomId].(status := Live, startedAt := Some(now), updatedAt := now), RoomStarted, actor, now)
      else s
    case FinishRoom(roomId, actor, reason) =>
      if Moderates(s, roomId, actor) && InStage(s, roomId, {Live, Scheduled}) then
        Saved(s, s.rooms[roomId].(status := Finished, endedAt := Some(now), endedBy := actor,
                                  endReason := Text.TrimSpace(reason), updatedAt := now), RoomFinished, actor, now)
        .(outbox := s.outbox
            + [JobRequest("close_room_sessions", "room:" + roomId + ":close_sessions:v1", roomId, actor),
               JobRequest("generate_room_report", "room:" + roomId + ":generate_report:v1", roomId, actor)])
      else s
    case JoinRoom(roomId, userId, id) =>
      if !InStage(s, roomId, {Live}) then s
      else if MaySpeak(s, roomId, userId) then Speaking(s, roomId, userId, id, now)
      else
        Heard(s, ListenerSession(id, roomId, userId, SessionActive, s.rooms[roomId].passiveMode, now, None, now,
                                 "", "", "", now, now), SessionStarted, now)
    case CreateSpeakerSession(roomId, userId, id) =>
      if InStage(s, roomId, {Live}) && MaySpeak(s, roomId, userId) then Speaking(s, roomId, userId, id, now) else s
    case Heartbeat(roomId, id, userId) =>
      if OwnsSession(s, roomId, id, userId) && IsActive(s, id) then
        Heard(s, s.sessions[id].(lastHeartbeatAt := now, updatedAt := now), HeartbeatReceived, now)
      else s
    case LeaveListener(roomId, id, userId, leaveType) =>
      if OwnsSession(s, roomId, id, userId) then
        Heard(s, Left(s.sessions[id], SessionLeft, now).(leaveType := Text.TrimSpace(leaveType)), SessionLeftEvent, now)
      else s
    case RemoveParticipant(roomId, actor, target, reason, _, lag) =>
      if Moderates(s, roomId, actor) then
        s.(sessions := map id | id in s.sessions ::
             if OwnsSession(s, roomId, id, target) && IsActive(s, id) then
               Left(s.sessions[id], SessionRemoved, now).(removedBy := actor, removeReason := Text.TrimSpace(reason))
             else s.sessions[id],
           events := s.events + [Event(UserRemoved, roomId, actor, target, now + lag, OfTarget(target, reason))])
      else s
    case ExpireStale(_, _, order) =>
      s.(sessions := map id | id in s.sessions ::
           if id in order then Expired(s.sessions[id], now) else s.sessions[id],
         events := s.events + seq(|order|, i requires 0 <= i < |order| =>
           var session := Expired(s.sessions[order[i]], now);
           Event(SessionExpiredEvent, session.roomId, "", session.userId, now, OfSession(session))))
    case CloseRoomSessions(roomId, _) =>
      s.(sessions := map id | id in s.sessions ::
           if s.sessions[id].roomId == roomId && IsActive(s, id) then
             Left(s.sessions[id], SessionLeft, now).(leaveType := "room_finished")
           else s.sessions[id])
    case RequestToSpeak(roomId, userId, id) =>
      if && InStage(s, roomId, {Live}) && !Blocked(s, roomId, userId)
         && !HasRequest(s, roomId, userId, RequestPending) then
        Asked(s, SpeakerRequest(id, roomId, userId, RequestPending, now, None, "", ""), SpeakerRequested, userId, now)
      else s
    case DecideRequest(roomId, id, actor, reason, approve) =>
      if Moderates(s, roomId, actor) && Decidable(s, roomId, id) then
        Asked(s, s.requests[id].(status := if approve then RequestApproved else RequestDeclined, decidedAt := Some(now),
                                 decidedBy := actor, decisionReason := Text.TrimSpace(reason)),
              if approve then SpeakerApproved else SpeakerDeclined, actor, now)
      else s
    case RevokeSpeaker(roomId, actor, target, reason) =>
      if Moderates(s, roomId, actor) then
        s.(events := s.events + [Event(SpeakerRevoked, roomId, actor, target, now, OfTarget(target, reason))])
      else s
    case BlockSpeaking(roomId, actor, target, reason, id) =>
      if Moderates(s, roomId, actor) && !Blocked(s, roomId, target) then
        Told(s, SpeakingBlock(id, roomId, target, actor, Text.TrimSpace(reason), now, "", None), SpeakerBlocked, actor,
             now)
      else s
    case UnblockSpeaking(roomId, actor, target, id) =>
      if Moderates(s, roomId, actor) && id in s.blocks && Blocked(s, roomId, target) then
        Told(s, s.blocks[id].(unblockedAt := Some(now), unblockedBy := actor), SpeakerUnblocked, actor, now)
      else s
    case StartRecording(roomId, actor, id) =>
      if cfg.recordingEnabled && Moderates(s, roomId, actor) && InStage(s, roomId, {Live}) then
        var key := Text.TrimSlashes(cfg.s3RecordingsPrefix) + "/" + roomId + "/full.mp4";
        var storage := StorageObject("s3", cfg.s3Bucket, cfg.s3Region, key, "video/mp4");
        Recorded(s, Recording(id, roomId, RecordingStarted, storage, 0, now, None, None, now, now),
                 s.rooms[roomId].(activeRecordingId := id, updatedAt := now), RecordingStartedEvent, actor, now)
      else s
    case StopRecording(roomId, id, actor) =>
      if Moderates(s, roomId, actor) && HasRecording(s, roomId, id) then
        var stored := s.recordings[id];
        var kept := if cfg.recordingRetentionDays > 0 then Some(now + cfg.recordingRetentionDays * 86_400 * SECOND)
                    else stored.expiresAt;
        Recorded(s, stored.(status := RecordingCompleted, endedAt := Some(now), expiresAt := kept, updatedAt := now,
                            durationSeconds := Do.WholeSeconds(now - stored.startedAt)),
                 s.rooms[roomId].(activeRecordingId := "", updatedAt := now), RecordingCompletedEvent, actor, now)
      else s
    case GenerateReport(roomId, actor, id) =>
      if Moderates(s, roomId, actor) then
        var report := Report(id, roomId, StatsOf(s, roomId, now), now);
        s.(reports := s.reports[roomId := report],
           events := s.events + [Event(ReportCompleted, roomId, actor, "", now, OfReport(report))])
      else s
  }

  // ----- The service meets it -----

  lemma CreateMeets(cfg: ServiceConfig, s: State, cmd: Command, now: Time)
    requires cmd.CreateRoom? && Possible(s, cmd)
    ensures Apply(cfg, s, cmd, now).(presence := s.presence) == Expected(cfg, s, cmd, now)
  {
    hide Text.TrimSpace, Text.AllSpace, Do.UniqueStrings, Unused;
    Text.BlankIff(cmd.title);
    Text.BlankIff(cmd.ownerId);
  }

  lemma StartMeets(cfg: ServiceConfig, s: State, cmd: Command, now: Time)
    requires cmd.StartRoom? && Keyed(s) && Possible(s, cmd)
    ensures Apply(cfg, s, cmd, now).(presence := s.presence) == Expected(cfg, s, cmd, now)
  {
    hide OnLists, ResolveRole, RoleCanModerate;
    ModeratesIff(s, cmd.roomId, cmd.actor);
  }

  lemma FinishMeets(cfg: ServiceConfig, s: State, cmd: Command, now: Time)
    requires cmd.FinishRoom? && Keyed(s) && Possible(s, cmd)
    ensures Apply(cfg, s, cmd, now).(presence := s.presence) == Expected(cfg, s, cmd, now)
  {
    hide Text.TrimSpace, OnLists, ResolveRole, RoleCanModerate;
    ModeratesIff(s, cmd.roomId, cmd.actor);
  }

  lemma RolesAgree(s: State, roomId: string, userId: string)
    requires Keyed(s) && roomId in s.rooms
    ensures RoleUsesLiveKit(Do.RoleOf(s, s.rooms[roomId], userId)) <==> MaySpeak(s, roomId, userId)
    ensures MaySpeak(s, roomId, userId) ==>
              Do.RoleOf(s, s.rooms[roomId], userId) == SpeakingRole(s.rooms[roomId], userId)
  {
    hide HasRequest, RequestsOf;
    HasRequestIff(s, roomId, userId, RequestApproved);
  }

  lemma JoinMeets(cfg: ServiceConfig, s: State, cmd: Command, now: Time)
    requires cmd.JoinRoom? && Keyed(s) && Possible(s, cmd)
    ensures Apply(cfg, s, cmd, now).(presence := s.presence) == Expected(cfg, s, cmd, now)
  {
    hide Do.RoleOf, SpeakingRole, MaySpeak, RoleUsesLiveKit, Do.SpeakerResult, Do.ListenerResult, ParticipantPresent,
         ListenerPresent, NewId;
    if cmd.roomId in s.rooms {
      RolesAgree(s, cmd.roomId, cmd.userId);
    }
  }

  lemma SpeakerSessionMeets(cfg: ServiceConfig, s: State, cmd: Command, now: Time)
    requires cmd.CreateSpeakerSession? && Keyed(s) && Possible(s, cmd)
    ensures Apply(cfg, s, cmd, now).(presence := s.presence) == Expected(cfg, s, cmd, now)
  {
    hide Do.RoleOf, SpeakingRole, MaySpeak, RoleUsesLiveKit, Do.SpeakerResult, ParticipantPresent, NewId;
    if cmd.roomId in s.rooms {
      RolesAgree(s, cmd.roomId, cmd.userId);
    }
  }

  lemma HeartbeatMeets(cfg: ServiceConfig, s: State, cmd: Command, now: Time)
    requires cmd.Heartbeat? && Keyed(s)
    ensures Apply(cfg, s, cmd, now).(presence := s.presence) == Expected(cfg, s, cmd, now)
  {
    hide ListenerPresent;
  }

  lemma LeaveMeets(cfg: ServiceConfig, s: State, cmd: Command, now: Time)
    requires cmd.LeaveListener? && Keyed(s)
    ensures Apply(cfg, s, cmd, now).(presence := s.presence) == Expected(cfg, s, cmd, now)
  {
    hide Text.TrimSpace, ListenerAbsent;
    if Do.OwnSession(s, cmd.roomId, cmd.sessionId, cmd.userId).Ok? {
      var ended := Do.LeaveListener(s, cmd.roomId, cmd.sessionId, cmd.userId, cmd.leaveType, now).0.ended;
      assert ended[..0] == [];
      assert EndSessions(s, []) == s;
    }
  }

  lemma RequestMeets(cfg: ServiceConfig, s: State, cmd: Command, now: Time)
    requires cmd.RequestToSpeak? && Possible(s, cmd)
    ensures Apply(cfg, s, cmd, now).(presence := s.presence) == Expected(cfg, s, cmd, now)
  {
    hide NewId, Blocked, HasRequest, ActiveBlocks, RequestsOf;
    BlockedIff(s, cmd.roomId, cmd.userId);
    HasRequestIff(s, cmd.roomId, cmd.userId, RequestPending);
  }

  lemma DecisionMeets(cfg: ServiceConfig, s: State, cmd: Command, now: Time)
    requires cmd.DecideRequest? && Keyed(s)
    ensures Apply(cfg, s, cmd, now).(presence := s.presence) == Expected(cfg, s, cmd, now)
  {
    hide Text.TrimSpace, Moderates, CanModerate, ResolveRole, RoleCanModerate;
    ModeratedIff(s, cmd.roomId, cmd.actor);
  }

  lemma ModeratedIff(s: State, roomId: string, actor: string)
    ensures Do.ModeratedRoom(s, roomId, actor).Ok? <==> Moderates(s, roomId, actor)
    ensures Moderates(s, roomId, actor) ==>
              roomId in s.rooms && Do.ModeratedRoom(s, roomId, actor) == Ok(s.rooms[roomId])
  {
  }

  lemma RevokeMeets(cfg: ServiceConfig, s: State, cmd: Command, now: Time)
    requires cmd.RevokeSpeaker?
    ensures Apply(cfg, s, cmd, now).(presence := s.presence) == Expected(cfg, s, cmd, now)
  {
    hide Do.ModeratedRoom, Moderates;
    ModeratedIff(s, cmd.roomId, cmd.actor);
  }

  lemma BlockMeets(cfg: ServiceConfig, s: State, cmd: Command, now: Time)
    requires cmd.BlockSpeaking? && Possible(s, cmd)
    ensures Apply(cfg, s, cmd, now).(presence := s.presence) == Expected(cfg, s, cmd, now)
  {
    hide Text.TrimSpace, Do.ModeratedRoom, Moderates, Blocked, NewId;
    ModeratedIff(s, cmd.roomId, cmd.actor);
    BlockedIff(s, cmd.roomId, cmd.target);
  }

  lemma UnblockMeets(cfg: ServiceConfig, s: State, cmd: Command, now: Time)
    requires cmd.UnblockSpeaking? && Keyed(s) && Possible(s, cmd)
    ensures Apply(cfg, s, cmd, now).(presence := s.presence) == Expected(cfg, s, cmd, now)
  {
    hide Do.ModeratedRoom, Moderates, Blocked;
    ModeratedIff(s, cmd.roomId, cmd.actor);
    BlockedIff(s, cmd.roomId, cmd.target);
  }

  lemma StartRecordingMeets(cfg: ServiceConfig, s: State, cmd: Command, now: Time)
    requires cmd.StartRecording? && Keyed(s) && Possible(s, cmd)
    ensures Apply(cfg, s, cmd, now).(presence := s.presence) == Expected(cfg, s, cmd, now)
  {
    hide Text.TrimSlashes, Do.ModeratedRoom, Moderates, NewId;
    ModeratedIff(s, cmd.roomId, cmd.actor);
  }

  lemma StopRecordingMeets(cfg: ServiceConfig, s: State, cmd: Command, now: Time)
    requires cmd.StopRecording? && Keyed(s)
    ensures Apply(cfg, s, cmd, now).(presence := s.presence) == Expected(cfg, s, cmd, now)
  {
    hide Do.ModeratedRoom, Moderates, Do.WholeSeconds;
    ModeratedIff(s, cmd.roomId, cmd.actor);
  }

  lemma ReportMeets(cfg: ServiceConfig, s: State, cmd: Command, now: Time)
    requires cmd.GenerateReport?
    ensures Apply(cfg, s, cmd, now).(presence := s.presence) == Expected(cfg, s, cmd, now)
  {
    hide Do.ModeratedRoom, Moderates, StatsOf;
    ModeratedIff(s, cmd.roomId, cmd.actor);
  }

  /** Ending the listed sessions one by one ends each of them as `how` says and touches no other. */
  lemma EndsListed(s: State, order: seq<string>, how: ListenerSession -> ListenerSession, ended: seq<ListenerSession>)
    requires forall i :: 0 <= i < |order| ==> order[i] in s.sessions
    requires forall i, j :: 0 <= i < j < |order| ==> order[i] != order[j]
    requires |ended| == |order|
    requires forall i :: 0 <= i < |order| ==> ended[i] == how(s.sessions[order[i]]) && ended[i].id == order[i]
    ensures EndSessions(s, ended).sessions
         == map id | id in s.sessions :: if id in order then how(s.sessions[id]) else s.sessions[id]
    ensures var after := EndSessions(s, ended); after == s.(sessions := after.sessions, presence := after.presence)
  {
    hide EndSessions;
    VoiceLaws.EndSessionsEffect(s, ended);
    VoiceLaws.EndSessionsFrame(s, ended);
    var after := EndSessions(s, ended).sessions;
    forall id | id in s.sessions
      ensures after[id] == if id in order then how(s.sessions[id]) else s.sessions[id]
    {
      if i :| 0 <= i < |order| && order[i] == id {
        assert after[ended[i].id] == ended[i];
      } else {
        assert forall i :: 0 <= i < |ended| ==> ended[i].id != id;
      }
    }
  }

  lemma ListsActive(s: State, roomId: string, order: seq<string>)
    requires Do.Lists(order, ActiveIn(s.sessions, roomId))
    ensures forall i :: 0 <= i < |order| ==> order[i] in s.sessions
    ensures forall i, j :: 0 <= i < j < |order| ==> order[i] != order[j]
    ensures forall id :: id in s.sessions ==> (id in order <==> s.sessions[id].roomId == roomId && IsActive(s, id))
  {
  }

  lemma CloseMeets(cfg: ServiceConfig, s: State, cmd: Command, now: Time)
    requires cmd.CloseRoomSessions? && Keyed(s) && Possible(s, cmd)
    ensures Apply(cfg, s, cmd, now).(presence := s.presence) == Expected(cfg, s, cmd, now)
  {
    hide EndSessions, Do.Lists, ActiveIn, IsActive;
    ListsActive(s, cmd.roomId, cmd.order);
    var ended := Do.CloseEach(s, cmd.order, now);
    EndsListed(s, cmd.order, session => Do.ClosedAt(session, now), ended);
    assert EndSessions(s, ended).sessions == Expected(cfg, s, cmd, now).sessions;
  }

  lemma ExpiryMeets(cfg: ServiceConfig, s: State, cmd: Command, now: Time)
    requires cmd.ExpireStale? && Keyed(s) && Possible(s, cmd)
    ensures Apply(cfg, s, cmd, now).(presence := s.presence) == Expected(cfg, s, cmd, now)
  {
    hide EndSessions;
    var ended := Do.ExpireEach(s, cmd.order, now);
    EndsListed(s, cmd.order, session => Do.ExpiredAt(session, now), ended);
    assert EndSessions(s, ended).sessions == Expected(cfg, s, cmd, now).sessions;
    assert Do.ExpiryEvents(ended, now) == Expected(cfg, s, cmd, now).events[|s.events|..];
  }

  lemma RemovalMeets(cfg: ServiceConfig, s: State, cmd: Command, now: Time)
    requires cmd.RemoveParticipant? && Keyed(s) && Possible(s, cmd)
    ensures Apply(cfg, s, cmd, now).(presence := s.presence) == Expected(cfg, s, cmd, now)
  {
    hide EndSessions, Text.TrimSpace, Do.ModeratedRoom, Moderates;
    ModeratedIff(s, cmd.roomId, cmd.actor);
    var ended := Do.RemoveEach(s, cmd.order, cmd.actor, cmd.reason, now);
    EndsListed(s, cmd.order, session => Do.RemovedBy(session, cmd.actor, cmd.reason, now), ended);
    if Moderates(s, cmd.roomId, cmd.actor) {
      assert EndSessions(s, ended).sessions == Expected(cfg, s, cmd, now).sessions;
    }
  }

  /** Whatever the command and the state, the service leaves exactly the records and events of the table. */
  lemma ServiceMeetsTable(cfg: ServiceConfig, s: State, cmd: Command, now: Time)
    requires Keyed(s) && Possible(s, cmd)
    ensures Apply(cfg, s, cmd, now).(presence := s.presence) == Expected(cfg, s, cmd, now)
  {
    hide Possible, Keyed, Apply, Expected;
    match cmd
    case CreateRoom(_, _, _, _, _, _, _) => CreateMeets(cfg, s, cmd, now);
    case StartRoom(_, _) => StartMeets(cfg, s, cmd, now);
    case FinishRoom(_, _, _) => FinishMeets(cfg, s, cmd, now);
    case JoinRoom(_, _, _) => JoinMeets(cfg, s, cmd, now);
    case CreateSpeakerSession(_, _, _) => SpeakerSessionMeets(cfg, s, cmd, now);
    case Heartbeat(_, _, _) => HeartbeatMeets(cfg, s, cmd, now);
    case LeaveListener(_, _, _, _) => LeaveMeets(cfg, s, cmd, now);
    case RemoveParticipant(_, _, _, _, _, _) => RemovalMeets(cfg, s, cmd, now);
    case ExpireStale(_, _, _) => ExpiryMeets(cfg, s, cmd, now);
    case CloseRoomSessions(_, _) => CloseMeets(cfg, s, cmd, now);
    case RequestToSpeak(_, _, _) => RequestMeets(cfg, s, cmd, now);
    case DecideRequest(_, _, _, _, _) => DecisionMeets(cfg, s, cmd, now);
    case RevokeSpeaker(_, _, _, _) => RevokeMeets(cfg, s, cmd, now);
    case BlockSpeaking(_, _, _, _, _) => BlockMeets(cfg, s, cmd, now);
    case UnblockSpeaking(_, _, _, _) => UnblockMeets(cfg, s, cmd, now);
    case StartRecording(_, _, _) => StartRecordingMeets(cfg, s, cmd, now);
    case StopRecording(_, _, _) => StopRecordingMeets(cfg, s, cmd, now);
    case GenerateReport(_, _, _) => ReportMeets(cfg, s, cmd, now);
  }

  /** Whom an expiry run takes: active sessions silent since before the cutoff, a hundred unless a limit is given. */
  lemma ExpiryTakes(s: State, cutoff: Time, limit: int, order: seq<string>)
    requires Possible(s, ExpireStale(cutoff, limit, order))
    ensures forall id :: id in order ==> IsActive(s, id) && s.sessions[id].lastHeartbeatAt < cutoff
    ensures |order| == Min(if limit <= 0 then 100 else limit,
                           |set id | id in s.sessions && IsActive(s, id) && s.sessions[id].lastHeartbeatAt < cutoff|)
  {
    assert Stale(s.sessions, cutoff)
        == set id | id in s.sessions && IsActive(s, id) && s.sessions[id].lastHeartbeatAt < cutoff;
  }

  predicate Stored<T(==)>(table: map<string, T>, id: string, record: T) {
    id in table && table[id] == record
  }

  /** A command about a room answers the very record it leaves in the store. */
  lemma RoomAnswersAreStored(s: State, roomId: string, actor: string, text: string, now: Time)
    requires Keyed(s)
    ensures var (change, answer) := Do.StartRoom(s, roomId, actor, now);
            answer.Ok? ==> Stored(Write(s, change).rooms, roomId, answer.value)
    ensures var (change, answer) := Do.FinishRoom(s, roomId, actor, text, now);
            answer.Ok? ==> Stored(Write(s, change).rooms, roomId, answer.value)
  {
    hide Text.TrimSpace, ResolveRole, RoleCanModerate;
  }

  lemma ReportAnswerIsStored(s: State, roomId: string, actor: string, id: string, now: Time)
    ensures var (change, answer) := Do.GenerateReport(s, roomId, actor, id, now);
            answer.Ok? ==> Stored(Write(s, change).reports, roomId, answer.value)
  {
    hide StatsOf, Do.ModeratedRoom;
  }

  /** So does one about a speaker request. */
  lemma RequestAnswersAreStored(s: State, roomId: string, id: string, userId: string, text: string, approve: bool,
                                  now: Time)
    requires Keyed(s)
    ensures var (change, answer) := Do.RequestToSpeak(s, roomId, userId, id, now);
            answer.Ok? ==> Stored(Write(s, change).requests, id, answer.value)
    ensures var (change, answer) := Do.DecideRequest(s, roomId, id, userId, text, approve, now);
            answer.Ok? ==> Stored(Write(s, change).requests, id, answer.value)
  {
    hide Text.TrimSpace, Do.ModeratedRoom, ActiveBlocks, RequestsOf;
  }

  lemma HeartbeatAnswerIsStored(s: State, roomId: string, id: string, userId: string, now: Time)
    requires Keyed(s)
    ensures var (change, answer) := Do.Heartbeat(s, roomId, id, userId, now);
            answer.Ok? ==> Stored(Write(s, change).sessions, id, answer.value)
  {
    hide ListenerPresent;
  }

  /** And one about a recording. */
  lemma RecordingAnswersAreStored(cfg: ServiceConfig, s: State, roomId: string, id: string, actor: string, now: Time)
    requires Keyed(s)
    ensures var (change, answer) := Do.StartRecording(cfg, s, roomId, actor, id, now);
            answer.Ok? ==> Stored(Write(s, change).recordings, id, answer.value)
    ensures var (change, answer) := Do.StopRecording(cfg, s, roomId, id, actor, now);
            answer.Ok? ==> Stored(Write(s, change).recordings, id, answer.value)
  {
    hide Text.TrimSlashes, Do.ModeratedRoom, Do.StorageFor, Do.WholeSeconds;
  }

  /** Blocking and unblocking answer a stored block on the user, and one that stands exactly after blocking. */
  lemma BlockAnswersAreStored(s: State, roomId: string, actor: string, target: string, reason: string, id: string,
                                now: Time)
    requires Keyed(s) && Possible(s, BlockSpeaking(roomId, actor, target, reason, id))
    ensures var (change, answer) := Do.BlockSpeaking(s, roomId, actor, target, reason, id, now);
            answer.Ok? ==> && Stored(Write(s, change).blocks, id, answer.value) && answer.value.unblockedAt.None?
                           && answer.value.roomId == roomId && answer.value.userId == target
    ensures var (change, answer) := Do.UnblockSpeaking(s, roomId, actor, target, id, now);
            answer.Ok? ==> && Stored(Write(s, change).blocks, id, answer.value) && answer.value.unblockedAt == Some(now)
                           && answer.value.roomId == roomId && answer.value.userId == target
  {
    hide Text.TrimSpace, Do.ModeratedRoom, NewId;
  }

  /** Whole seconds of a duration, rounded toward zero. */
  lemma WholeSecondsTowardZero(d: Time)
    ensures d >= 0 ==> d - SECOND < Do.WholeSeconds(d) * SECOND <= d
    ensures Do.WholeSeconds(-d) == -Do.WholeSeconds(d)
  {
  }

  /**
   Asking to speak: accepted exactly in a live room without a block or a pending request, refused as a conflict
   exactly for the pending request; then the new request is the one pending and the log names who asked.
   */
  lemma RequestPlaced(cfg: ServiceConfig, s: State, roomId: string, userId: string, id: string, now: Time)
    requires Keyed(s) && NewId(s, id)
    ensures var (change, answer) := Do.RequestToSpeak(s, roomId, userId, id, now);
            var s' := Write(s, change);
            && (answer.Ok? <==> && InStage(s, roomId, {Live}) && !Blocked(s, roomId, userId)
                                && !HasRequest(s, roomId, userId, RequestPending))
            && (answer == Err(Conflict) <==> && InStage(s, roomId, {Live}) && !Blocked(s, roomId, userId)
                                             && HasRequest(s, roomId, userId, RequestPending))
            && (answer.Ok? ==>
                  && RequestsOf(s'.requests, roomId, userId, RequestPending) == {id}
                  && s'.requests.Keys == s.requests.Keys + {id}
                  && (forall other :: other in s.requests ==> s'.requests[other] == s.requests[other])
                  && s' == s.(requests := s'.requests,
                              events := s.events + [Event(SpeakerRequested, roomId, userId, userId, now,
                                                          OfRequest(answer.value))]))
  {
    hide Blocked, HasRequest, ActiveBlocks;
    BlockedIff(s, roomId, userId);
    HasRequestIff(s, roomId, userId, RequestPending);
  }
}
