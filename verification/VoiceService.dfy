/**
 The voice service (internal/app/voiceapp/service.go) over the in-memory store and an optional presence store.
 Every command is proved to write and answer exactly what VoiceCommands decides.
 */
module VoiceService {
  import opened Base
  import Text
  import opened VoiceTypes
  import opened VoiceState
  import opened VoiceRuns
  import opened VoiceLaws
  import opened VoiceStore
  import opened PresenceStores
  import PresenceLaws
  import Do = VoiceCommands

  /** Trims, drops blanks and keeps first appearances, with a set of what was seen. */
  method UniqueStrings(values: seq<string>) returns (out: seq<string>)
    ensures out == Do.UniqueStrings(values)
  {
    var seen: set<string> := {};
    out := [];
    for i := 0 to |values|
      invariant out == Do.UniqueStrings(values[..i])
      invariant forall v :: v in seen <==> v in out
    {
      assert values[..i + 1][..i] == values[..i];
      var value := Text.TrimSpace(values[i]);
      if value == "" || value in seen {
        continue;
      }
      seen := seen + {value};
      out := out + [value];
    }
    assert values[..|values|] == values;
  }

  class Service {
    const cfg: ServiceConfig
    const store: Store
    const presence: NoopPresenceStore?
    /** Tokens issued and jobs asked for, in order. */
    var grants: seq<Grant>
    var outbox: seq<JobRequest>

    constructor (cfg: ServiceConfig, store: Store, presence: NoopPresenceStore?)
      ensures this.cfg == cfg && this.store == store && this.presence == presence && grants == [] && outbox == []
    {
      this.cfg, this.store, this.presence, grants, outbox := cfg, store, presence, [], [];
    }

    function View(): State
      reads this, store, presence
    {
      State(store.rooms, store.sessions, store.participants, store.requests, store.blocks, store.recordings,
            store.reports, store.events, if presence == null then None else Some(presence.Value()), grants, outbox)
    }

    ghost predicate Valid()
      reads this, store, presence
    {
      Keyed(View())
    }

    method Publish(eventType: EventType, roomId: string, actor: string, target: string, now: Time, payload: Payload)
      modifies store`events
      ensures store.events == old(store.events) + [Event(eventType, roomId, actor, target, now, payload)]
    {
      store.AppendEvent(Event(eventType, roomId, actor, target, now, payload));
    }

    // ----- A save and the event that reports it -----

    method PublishRoom(room: Room, eventType: EventType, actor: string, now: Time)
      modifies store`rooms, store`events
      ensures View() == Write(old(View()), PutRoom(room, Event(eventType, room.id, actor, "", now, OfRoom(room)), []))
    {
      store.SaveRoom(room);
      Publish(eventType, room.id, actor, "", now, OfRoom(room));
      assert outbox + [] == outbox;
    }

    method PublishRequest(request: SpeakerRequest, eventType: EventType, actor: string, now: Time)
      modifies store`requests, store`events
      ensures View() == Write(old(View()), PutRequest(request, Event(eventType, request.roomId, actor, request.userId, now,
                                                                     OfRequest(request))))
    {
      store.SaveSpeakerRequest(request);
      Publish(eventType, request.roomId, actor, request.userId, now, OfRequest(request));
    }

    method PublishBlock(block: SpeakingBlock, eventType: EventType, actor: string, now: Time)
      modifies store`blocks, store`events
      ensures View() == Write(old(View()), PutBlock(block, Event(eventType, block.roomId, actor, block.userId, now,
                                                                 OfBlock(block))))
    {
      store.SaveSpeakingBlock(block);
      Publish(eventType, block.roomId, actor, block.userId, now, OfBlock(block));
    }

    method PublishRecording(recording: Recording, room: Room, eventType: EventType, actor: string, now: Time)
      modifies store`recordings, store`rooms, store`events
      ensures View() == Write(old(View()), PutRecording(recording, room, Event(eventType, room.id, actor, "", now,
                                                                               OfRecording(recording))))
    {
      store.SaveRecording(recording);
      store.SaveRoom(room);
      Publish(eventType, room.id, actor, "", now, OfRecording(recording));
    }

    // ----- Rooms -----

    method CreateRoom(title: string, ownerId: string, adminIds: seq<string>, moderatorIds: seq<string>,
                      roomId: string, streamId: string, passiveMode: string, now: Time) returns (r: Result<Room, Error>)
      requires Valid() && NewId(View(), roomId)
      modifies store`rooms, store`events
      ensures Valid()
      ensures var (change, answer) :=
                Do.CreateRoom(cfg, title, ownerId, adminIds, moderatorIds, roomId, streamId, passiveMode, now);
              View() == Write(old(View()), change) && r == answer
    {
      hide Keyed, Legal, Text.TrimSpace;
      var trimmed := Text.TrimSpace(title);
      if trimmed == "" || Text.TrimSpace(ownerId) == "" {
        return Err(InvalidArgument);
      }
      var admins := UniqueStrings(adminIds);
      var moderators := UniqueStrings(moderatorIds);
      var room := Room(roomId, trimmed, Draft, ownerId, admins, moderators, "lk_" + roomId, streamId, passiveMode,
                       cfg.recordingEnabled, "", None, None, "", "", now, now);
      PublishRoom(room, RoomCreated, ownerId, now);
      CreateRoomIsLegal(cfg, old(View()), title, ownerId, adminIds, moderatorIds, roomId, streamId, passiveMode, now);
      KeyedStep(old(View()), PutRoom(room, Event(RoomCreated, room.id, ownerId, "", now, OfRoom(room)), []), now);
      return Ok(room);
    }

    method StartRoom(roomId: string, actor: string, now: Time) returns (r: Result<Room, Error>)
      requires Valid()
      modifies store`rooms, store`events
      ensures Valid()
      ensures var (change, answer) := Do.StartRoom(old(View()), roomId, actor, now);
              View() == Write(old(View()), change) && r == answer
    {
      hide Keyed, Legal, Text.TrimSpace;
      var found := store.GetRoom(roomId);
      if found.Err? {
        return found;
      }
      var room := found.value;
      if !RoleCanModerate(ResolveRole(room, actor)) {
        return Err(PermissionDenied);
      }
      if room.status != Draft && room.status != Scheduled {
        return Err(InvalidRoomState);
      }
      room := room.(status := Live);
      room := room.(startedAt := Some(now));
      room := room.(updatedAt := now);
      PublishRoom(room, RoomStarted, actor, now);
      StartRoomIsLegal(old(View()), roomId, actor, now);
      KeyedStep(old(View()), Do.StartRoom(old(View()), roomId, actor, now).0, now);
      return Ok(room);
    }

    method FinishRoom(roomId: string, actor: string, reason: string, now: Time) returns (r: Result<Room, Error>)
      requires Valid()
      modifies store`rooms, store`events, `outbox
      ensures Valid()
      ensures var (change, answer) := Do.FinishRoom(old(View()), roomId, actor, reason, now);
              View() == Write(old(View()), change) && r == answer
    {
      hide Keyed, Legal, Text.TrimSpace;
      var found := store.GetRoom(roomId);
      if found.Err? {
        return found;
      }
      var room := found.value;
      if !RoleCanModerate(ResolveRole(room, actor)) {
        return Err(PermissionDenied);
      }
      if room.status != Live && room.status != Scheduled {
        return Err(InvalidRoomState);
      }
      room := room.(status := Finished);
      room := room.(endedAt := Some(now));
      room := room.(endedBy := actor);
      room := room.(endReason := Text.TrimSpace(reason));
      room := room.(updatedAt := now);
      PublishRoom(room, RoomFinished, actor, now);
      ghost var asked := outbox;
      EnqueueBestEffort(Do.CLOSE_ROOM_SESSIONS, "room:" + room.id + ":close_sessions:v1", room.id, actor);
      EnqueueBestEffort(Do.GENERATE_ROOM_REPORT, "room:" + room.id + ":generate_report:v1", room.id, actor);
      assert outbox == asked + Do.FinishJobs(room.id, actor);
      FinishRoomIsLegal(old(View()), roomId, actor, reason, now);
      KeyedStep(old(View()), Do.FinishRoom(old(View()), roomId, actor, reason, now).0, now);
      return Ok(room);
    }

    method EnqueueBestEffort(jobType: string, key: string, roomId: string, actor: string)
      modifies `outbox
      ensures outbox == old(outbox) + [JobRequest(jobType, key, roomId, actor)]
    {
      outbox := outbox + [JobRequest(jobType, key, roomId, actor)];
    }

    method ActiveCounts(roomId: string) returns (listeners: nat, liveKit: nat, activeUsers: nat)
      ensures (listeners, liveKit) == PresenceLaws.ActiveCounts(View(), roomId)
      ensures activeUsers == listeners + liveKit
    {
      if presence != null {
        listeners := presence.ActiveListenerCount(roomId);
        liveKit := presence.ActiveParticipantCount(roomId);
      } else {
        listeners := store.CountActiveListeners(roomId);
        liveKit := store.CountActiveParticipantSessions(roomId);
      }
      activeUsers := listeners + liveKit;
    }

    // ----- Joining and listening -----

    method RoleInRoom(room: Room, userId: string) returns (role: Role)
      ensures role == Do.RoleOf(View(), room, userId)
    {
      role := ResolveRole(room, userId);
      if role != Listener {
        return;
      }
      var approved := store.FindSpeakerRequest(room.id, userId, RequestApproved);
      if approved.Ok? {
        return Speaker;
      }
      return Listener;
    }

    /** Saves the participant session, marks it present and issues the token. */
    method AdmitSpeaker(p: ParticipantSession)
      modifies store`participants, presence, `grants
      ensures View() == Write(old(View()), PutSpeaker(p))
    {
      store.SaveParticipantSession(p);
      if presence != null {
        presence.MarkParticipantActive(p.roomId, p.id);
      }
      grants := grants + [Grant(p.roomId, p.userId, p.role, |store.events|)];
    }

    method JoinRoom(roomId: string, userId: string, sessionId: string, now: Time) returns (r: Result<JoinResult, Error>)
      requires Valid() && NewId(View(), sessionId)
      modifies store`participants, store`sessions, store`events, presence, `grants
      ensures Valid()
      ensures var (change, answer) := Do.JoinRoom(old(View()), roomId, userId, sessionId, now);
              View() == Write(old(View()), change) && r == answer
    {
      hide Keyed, Legal, Text.TrimSpace, Do.RoleOf, RoleUsesLiveKit, Do.SpeakerResult, Do.ListenerResult;
      var found := store.GetRoom(roomId);
      if found.Err? {
        return Err(found.error);
      }
      var room := found.value;
      if room.status != Live {
        return Err(RoomNotLive);
      }
      var role := RoleInRoom(room, userId);
      if RoleUsesLiveKit(role) {
        AdmitSpeaker(ParticipantSession(sessionId, room.id, userId, role, userId, ParticipantActive, now));
        JoinRoomIsLegal(old(View()), roomId, userId, sessionId, now);
        KeyedStep(old(View()), Do.JoinRoom(old(View()), roomId, userId, sessionId, now).0, now);
        return Ok(Do.SpeakerResult(room, userId, role));
      }
      var session := ListenerSession(sessionId, room.id, userId, SessionActive, room.passiveMode, now, None, now,
                                     "", "", "", now, now);
      store.SaveListenerSession(session);
      if presence != null {
        presence.MarkListenerActive(room.id, session.id);
      }
      Publish(SessionStarted, room.id, userId, "", now, OfSession(session));
      JoinRoomIsLegal(old(View()), roomId, userId, sessionId, now);
      KeyedStep(old(View()), Do.JoinRoom(old(View()), roomId, userId, sessionId, now).0, now);
      return Ok(Do.ListenerResult(room, userId, role, session.id));
    }

    method CreateSpeakerSession(roomId: string, userId: string, sessionId: string, now: Time)
      returns (r: Result<JoinResult, Error>)
      requires Valid() && NewId(View(), sessionId)
      modifies store`participants, presence, `grants
      ensures Valid()
      ensures var (change, answer) := Do.CreateSpeakerSession(old(View()), roomId, userId, sessionId, now);
              View() == Write(old(View()), change) && r == answer
    {
      hide Keyed, Legal, Text.TrimSpace;
      var found := store.GetRoom(roomId);
      if found.Err? {
        return Err(found.error);
      }
      var room := found.value;
      if room.status != Live {
        return Err(RoomNotLive);
      }
      var role := RoleInRoom(room, userId);
      if !RoleUsesLiveKit(role) {
        return Err(PermissionDenied);
      }
      AdmitSpeaker(ParticipantSession(sessionId, room.id, userId, role, userId, ParticipantActive, now));
      SpeakerSessionIsLegal(old(View()), roomId, userId, sessionId, now);
      KeyedStep(old(View()), Do.CreateSpeakerSession(old(View()), roomId, userId, sessionId, now).0, now);
      return Ok(Do.SpeakerResult(room, userId, role));
    }

    method ListenerHeartbeat(roomId: string, sessionId: string, userId: string, now: Time)
      returns (r: Result<ListenerSession, Error>)
      requires Valid()
      modifies store`sessions, store`events, presence
      ensures Valid()
      ensures var (change, answer) := Do.Heartbeat(old(View()), roomId, sessionId, userId, now);
              View() == Write(old(View()), change) && r == answer
    {
      hide Keyed, Legal, Text.TrimSpace;
      var found := store.GetListenerSession(sessionId);
      if found.Err? {
        return found;
      }
      var session := found.value;
      if session.roomId != roomId || session.userId != userId {
        return Err(PermissionDenied);
      }
      if session.status != SessionActive {
        return Err(ListenerSessionNotFound);
      }
      session := session.(lastHeartbeatAt := now);
      session := session.(updatedAt := now);
      store.SaveListenerSession(session);
      if presence != null {
        presence.TouchListener(session.roomId, session.id);
      }
      Publish(HeartbeatReceived, session.roomId, userId, "", now, OfSession(session));
      HeartbeatIsLegal(old(View()), roomId, sessionId, userId, now);
      KeyedStep(old(View()), Do.Heartbeat(old(View()), roomId, sessionId, userId, now).0, now);
      return Ok(session);
    }

    /** Saves an ended session and takes it out of the presence set. */
    method SaveEnded(session: ListenerSession)
      modifies store`sessions, presence
      ensures View() == EndSession(old(View()), session)
    {
      store.SaveListenerSession(session);
      if presence != null {
        presence.MarkListenerInactive(session.roomId, session.id);
      }
    }

    method LeaveListener(roomId: string, sessionId: string, userId: string, leaveType: string, now: Time)
      returns (r: Result<ListenerSession, Error>)
      requires Valid()
      modifies store`sessions, store`events, presence
      ensures Valid()
      ensures var (change, answer) := Do.LeaveListener(old(View()), roomId, sessionId, userId, leaveType, now);
              View() == Write(old(View()), change) && r == answer
    {
      hide Keyed, Legal, Text.TrimSpace;
      var found := store.GetListenerSession(sessionId);
      if found.Err? {
        return found;
      }
      var session := found.value;
      if session.roomId != roomId || session.userId != userId {
        return Err(PermissionDenied);
      }
      session := session.(status := SessionLeft);
      session := session.(leftAt := Some(now));
      session := session.(leaveType := Text.TrimSpace(leaveType));
      session := session.(updatedAt := now);
      SaveEnded(session);
      Publish(SessionLeftEvent, session.roomId, userId, "", now, OfSession(session));
      assert EndSessions(old(View()), [session]) == EndSession(old(View()), session);
      LeaveIsLegal(old(View()), roomId, sessionId, userId, leaveType, now);
      KeyedStep(old(View()), Do.LeaveListener(old(View()), roomId, sessionId, userId, leaveType, now).0, now);
      return Ok(session);
    }

    lemma KeyedSessions()
      requires Valid()
      ensures store.SessionsFiled()
    {
    }

    method RemoveParticipant(roomId: string, actor: string, target: string, reason: string, now: Time, told: Time)
      returns (r: Result<(), Error>, ghost order: seq<string>)
      requires Valid()
      modifies store`sessions, store`events, presence
      ensures Valid()
      ensures var found := Do.ModeratedRoom(old(View()), roomId, actor);
              if found.Err? then r == Err(found.error) && View() == old(View())
              else
                && Do.Lists(order, ActiveOf(old(View()).sessions, roomId, target))
                && var (change, answer) := Do.RemoveParticipant(old(View()), roomId, actor, target, reason, order, now, told);
                   View() == Write(old(View()), change) && r == answer
    {
      hide Keyed, Legal, Copies, Text.TrimSpace;
      order := [];
      var found := store.GetRoom(roomId);
      if found.Err? {
        return Err(found.error), order;
      }
      if !RoleCanModerate(ResolveRole(found.value, actor)) {
        return Err(PermissionDenied), order;
      }
      KeyedSessions();
      var sessions := store.ListActiveListenerSessionsByUser(roomId, target);
      order := Ids(sessions);
      ListedSessions(sessions, store.sessions);
      ghost var ended := Do.RemoveEach(View(), order, actor, reason, now);
      for i := 0 to |sessions|
        invariant View() == EndSessions(old(View()), ended[..i])
      {
        var session := sessions[i];
        session := session.(status := SessionRemoved);
        session := session.(leftAt := Some(now));
        session := session.(removedBy := actor);
        session := session.(removeReason := Text.TrimSpace(reason));
        session := session.(updatedAt := now);
        SaveEnded(session);
        OneMoreEnded(old(View()), ended, i);
      }
      assert ended[..|sessions|] == ended;
      Publish(UserRemoved, roomId, actor, target, told, OfTarget(target, reason));
      RemoveIsLegal(old(View()), roomId, actor, target, reason, order, now, told);
      KeyedStep(old(View()), Do.RemoveParticipant(old(View()), roomId, actor, target, reason, order, now, told).0, now);
      return Ok(()), order;
    }

    /** Expires one session and says so. */
    method ExpireOne(listed: ListenerSession, now: Time)
      modifies store`sessions, store`events, presence
      ensures var ended := Do.ExpiredAt(listed, now);
              View() == EndSession(old(View()), ended).(events := old(View()).events + Do.ExpiryEvents([ended], now))
    {
      var session := listed;
      session := session.(status := SessionExpired);
      session := session.(leftAt := Some(now));
      session := session.(leaveType := "heartbeat_timeout");
      session := session.(updatedAt := now);
      SaveEnded(session);
      Publish(SessionExpiredEvent, session.roomId, "", session.userId, now, OfSession(session));
    }

    method ExpireStaleListenerSessions(cutoff: Time, limit: int, now: Time)
      returns (expired: nat, ghost order: seq<string>)
      requires Valid()
      modifies store`sessions, store`events, presence
      ensures Valid() && Do.ListsStale(order, Stale(old(View()).sessions, cutoff), Do.EffectiveLimit(limit))
      ensures var (change, answer) := Do.ExpireStale(old(View()), cutoff, limit, order, now);
              View() == Write(old(View()), change) && expired == answer
    {
      hide Keyed, Legal, Copies, EndSessions, EndSession, Do.ExpiredAt, Stale, Do.ExpiryEvents;
      KeyedSessions();
      var effective: nat := 100;
      if limit > 0 {
        effective := limit;
      }
      var sessions := store.ListStaleListenerSessions(cutoff, effective);
      order := Ids(sessions);
      ListedSessions(sessions, store.sessions);
      StaleAreStored(store.sessions, cutoff);
      ghost var before := View();
      ghost var ended := Do.ExpireEach(before, order, now);
      expired := 0;
      NothingExpired(before, now);
      assert ended[..0] == [];
      for i := 0 to |sessions|
        invariant expired == i
        invariant View() == Expiring(before, ended[..i], now)
      {
        ExpireOne(sessions[i], now);
        expired := expired + 1;
        OneMoreExpired(before, ended[..i], ended[i], now);
        assert ended[..i + 1] == ended[..i] + [ended[i]];
      }
      assert ended[..|sessions|] == ended;
      AllExpired(before, ended, now);
      ExpiryIsLegal(before, cutoff, limit, order, now);
      KeyedStep(before, Do.ExpireStale(before, cutoff, limit, order, now).0, now);
    }

    method CloseRoomSessions(roomId: string, endedAt: Time) returns (ghost order: seq<string>)
      requires Valid()
      modifies store`sessions, presence
      ensures Valid() && Do.Lists(order, ActiveIn(old(View()).sessions, roomId))
      ensures View() == Write(old(View()), Do.CloseRoomSessions(old(View()), roomId, order, endedAt))
    {
      hide Keyed, Legal, Copies;
      KeyedSessions();
      var sessions := store.ListActiveListenerSessions(roomId);
      order := Ids(sessions);
      ListedSessions(sessions, store.sessions);
      ghost var ended := Do.CloseEach(View(), order, endedAt);
      for i := 0 to |sessions|
        invariant View() == EndSessions(old(View()), ended[..i])
      {
        var session := sessions[i];
        session := session.(status := SessionLeft);
        session := session.(leftAt := Some(endedAt));
        session := session.(leaveType := "room_finished");
        session := session.(updatedAt := endedAt);
        SaveEnded(session);
        OneMoreEnded(old(View()), ended, i);
      }
      assert ended[..|sessions|] == ended;
      assert store.events + [] == store.events;
      CloseIsLegal(old(View()), roomId, order, endedAt);
      KeyedStep(old(View()), Do.CloseRoomSessions(old(View()), roomId, order, endedAt), endedAt);
    }

    // ----- Speaking -----

    method RequestToSpeak(roomId: string, userId: string, requestId: string, now: Time)
      returns (r: Result<SpeakerRequest, Error>)
      requires Valid() && NewId(View(), requestId)
      modifies store`requests, store`events
      ensures Valid()
      ensures var (change, answer) := Do.RequestToSpeak(old(View()), roomId, userId, requestId, now);
              View() == Write(old(View()), change) && r == answer
    {
      hide Keyed, Legal, Text.TrimSpace;
      var found := store.GetRoom(roomId);
      if found.Err? {
        return Err(found.error);
      }
      if found.value.status != Live {
        return Err(RoomNotLive);
      }
      var block := store.GetActiveSpeakingBlock(roomId, userId);
      if block.Ok? {
        return Err(SpeakerIsBlocked);
      }
      var pending := store.FindSpeakerRequest(roomId, userId, RequestPending);
      if pending.Ok? {
        return Err(Conflict);
      }
      var request := SpeakerRequest(requestId, roomId, userId, RequestPending, now, None, "", "");
      PublishRequest(request, SpeakerRequested, userId, now);
      RequestIsLegal(old(View()), roomId, userId, requestId, now);
      KeyedStep(old(View()), Do.RequestToSpeak(old(View()), roomId, userId, requestId, now).0, now);
      return Ok(request);
    }

    method DecideSpeakerRequest(roomId: string, requestId: string, actor: string, reason: string, approve: bool, now: Time)
      returns (r: Result<SpeakerRequest, Error>)
      requires Valid()
      modifies store`requests, store`events
      ensures Valid()
      ensures var (change, answer) := Do.DecideRequest(old(View()), roomId, requestId, actor, reason, approve, now);
              View() == Write(old(View()), change) && r == answer
    {
      KeyedRequest(requestId);
      hide Keyed, Legal, Text.TrimSpace;
      var found := store.GetRoom(roomId);
      if found.Err? {
        return Err(found.error);
      }
      if !RoleCanModerate(ResolveRole(found.value, actor)) {
        return Err(PermissionDenied);
      }
      var stored := store.GetSpeakerRequest(requestId);
      if stored.Err? {
        return stored;
      }
      var request := stored.value;
      if request.roomId != roomId || request.status != RequestPending {
        return Err(InvalidRoomState);
      }
      request := request.(status := if approve then RequestApproved else RequestDeclined);
      request := request.(decidedAt := Some(now));
      request := request.(decidedBy := actor);
      request := request.(decisionReason := Text.TrimSpace(reason));
      PublishRequest(request, if approve then SpeakerApproved else SpeakerDeclined, actor, now);
      DecisionIsLegal(old(View()), roomId, requestId, actor, reason, approve, now);
      KeyedStep(old(View()), Do.DecideRequest(old(View()), roomId, requestId, actor, reason, approve, now).0, now);
      return Ok(request);
    }

    lemma KeyedRequest(requestId: string)
      requires Valid()
      ensures requestId in store.requests ==> store.requests[requestId].id == requestId
    {
    }

    method RevokeSpeaker(roomId: string, actor: string, target: string, reason: string, now: Time)
      returns (r: Result<(), Error>)
      requires Valid()
      modifies store`events
      ensures Valid()
      ensures var (change, answer) := Do.RevokeSpeaker(old(View()), roomId, actor, target, reason, now);
              View() == Write(old(View()), change) && r == answer
    {
      var found := store.GetRoom(roomId);
      if found.Err? {
        return Err(found.error);
      }
      if !RoleCanModerate(ResolveRole(found.value, actor)) {
        return Err(PermissionDenied);
      }
      Publish(SpeakerRevoked, roomId, actor, target, now, OfTarget(target, reason));
      return Ok(());
    }

    /** Answers the active block there is, or a new one; `blockId` is the block the answer is about. */
    method BlockSpeaking(roomId: string, actor: string, target: string, reason: string, newId: string, now: Time)
      returns (r: Result<SpeakingBlock, Error>, ghost blockId: string)
      requires Valid() && NewId(View(), newId)
      modifies store`blocks, store`events
      ensures Valid()
      ensures var found, active := Do.ModeratedRoom(old(View()), roomId, actor), ActiveBlocks(old(View()).blocks, roomId, target);
              if found.Err? then r == Err(found.error) && View() == old(View())
              else
                && (if active != {} then blockId in active else blockId == newId)
                && var (change, answer) := Do.BlockSpeaking(old(View()), roomId, actor, target, reason, blockId, now);
                   View() == Write(old(View()), change) && r == answer
    {
      hide Keyed, Legal, Text.TrimSpace;
      blockId := newId;
      var found := store.GetRoom(roomId);
      if found.Err? {
        return Err(found.error), blockId;
      }
      if !RoleCanModerate(ResolveRole(found.value, actor)) {
        return Err(PermissionDenied), blockId;
      }
      var existing := store.GetActiveSpeakingBlock(roomId, target);
      if existing.Ok? {
        blockId :| blockId in ActiveBlocks(store.blocks, roomId, target) && existing.value == store.blocks[blockId];
        return existing, blockId;
      }
      var block := SpeakingBlock(newId, roomId, target, actor, Text.TrimSpace(reason), now, "", None);
      PublishBlock(block, SpeakerBlocked, actor, now);
      BlockIsLegal(old(View()), roomId, actor, target, reason, newId, now);
      KeyedStep(old(View()), Do.BlockSpeaking(old(View()), roomId, actor, target, reason, newId, now).0, now);
      return Ok(block), blockId;
    }

    method UnblockSpeaking(roomId: string, actor: string, target: string, now: Time)
      returns (r: Result<SpeakingBlock, Error>, ghost blockId: string)
      requires Valid()
      modifies store`blocks, store`events
      ensures Valid()
      ensures var found, active := Do.ModeratedRoom(old(View()), roomId, actor), ActiveBlocks(old(View()).blocks, roomId, target);
              if found.Err? then r == Err(found.error) && View() == old(View())
              else
                && (active != {} ==> blockId in active)
                && var (change, answer) := Do.UnblockSpeaking(old(View()), roomId, actor, target, blockId, now);
                   View() == Write(old(View()), change) && r == answer
    {
      hide Keyed, Legal;
      blockId := "";
      var found := store.GetRoom(roomId);
      if found.Err? {
        return Err(found.error), blockId;
      }
      if !RoleCanModerate(ResolveRole(found.value, actor)) {
        return Err(PermissionDenied), blockId;
      }
      var existing := store.GetActiveSpeakingBlock(roomId, target);
      if existing.Err? {
        return existing, blockId;
      }
      blockId :| blockId in ActiveBlocks(store.blocks, roomId, target) && existing.value == store.blocks[blockId];
      KeyedBlock(blockId);
      var block := existing.value;
      block := block.(unblockedAt := Some(now));
      block := block.(unblockedBy := actor);
      PublishBlock(block, SpeakerUnblocked, actor, now);
      UnblockIsLegal(old(View()), roomId, actor, target, blockId, now);
      KeyedStep(old(View()), Do.UnblockSpeaking(old(View()), roomId, actor, target, blockId, now).0, now);
      return Ok(block), blockId;
    }

    lemma KeyedBlock(blockId: string)
      requires Valid()
      ensures blockId in store.blocks ==> store.blocks[blockId].id == blockId
    {
    }

    // ----- Recordings and reports -----

    lemma KeyedRoom(roomId: string)
      requires Valid()
      ensures roomId in store.rooms ==> store.rooms[roomId].id == roomId
    {
    }

    method StartRecording(roomId: string, actor: string, recordingId: string, now: Time)
      returns (r: Result<Recording, Error>)
      requires Valid() && NewId(View(), recordingId)
      modifies store`recordings, store`rooms, store`events
      ensures Valid()
      ensures var (change, answer) := Do.StartRecording(cfg, old(View()), roomId, actor, recordingId, now);
              View() == Write(old(View()), change) && r == answer
    {
      hide Keyed, Legal, Text.TrimSpace;
      KeyedRoom(roomId);
      if !cfg.recordingEnabled {
        return Err(RecordingDisabled);
      }
      var found := store.GetRoom(roomId);
      if found.Err? {
        return Err(found.error);
      }
      var room := found.value;
      if !RoleCanModerate(ResolveRole(room, actor)) {
        return Err(PermissionDenied);
      }
      if room.status != Live {
        return Err(RoomNotLive);
      }
      var recording := Recording(recordingId, roomId, RecordingStarted, Do.StorageFor(cfg, roomId), 0, now, None, None,
                                 now, now);
      room := room.(activeRecordingId := recording.id);
      room := room.(updatedAt := now);
      PublishRecording(recording, room, RecordingStartedEvent, actor, now);
      RecordingStartIsLegal(cfg, old(View()), roomId, actor, recordingId, now);
      KeyedStep(old(View()), Do.StartRecording(cfg, old(View()), roomId, actor, recordingId, now).0, now);
      return Ok(recording);
    }

    method StopRecording(roomId: string, recordingId: string, actor: string, now: Time) returns (r: Result<Recording, Error>)
      requires Valid()
      modifies store`recordings, store`rooms, store`events
      ensures Valid()
      ensures var (change, answer) := Do.StopRecording(cfg, old(View()), roomId, recordingId, actor, now);
              View() == Write(old(View()), change) && r == answer
    {
      hide Keyed, Legal, Text.TrimSpace;
      KeyedRoom(roomId);
      var found := store.GetRoom(roomId);
      if found.Err? {
        return Err(found.error);
      }
      var room := found.value;
      if !RoleCanModerate(ResolveRole(room, actor)) {
        return Err(PermissionDenied);
      }
      var stored := store.GetRecording(recordingId);
      if stored.Err? {
        return stored;
      }
      var recording := stored.value;
      if recording.roomId != roomId {
        return Err(RecordingNotFound);
      }
      recording := recording.(status := RecordingCompleted);
      recording := recording.(endedAt := Some(now));
      recording := recording.(durationSeconds := Do.WholeSeconds(now - recording.startedAt));
      if cfg.recordingRetentionDays > 0 {
        recording := recording.(expiresAt := Some(now + cfg.recordingRetentionDays * Do.DAY));
      }
      recording := recording.(updatedAt := now);
      room := room.(activeRecordingId := "");
      room := room.(updatedAt := now);
      PublishRecording(recording, room, RecordingCompletedEvent, actor, now);
      RecordingStopIsLegal(cfg, old(View()), roomId, recordingId, actor, now);
      KeyedStep(old(View()), Do.StopRecording(cfg, old(View()), roomId, recordingId, actor, now).0, now);
      return Ok(recording);
    }

    method GenerateReport(roomId: string, actor: string, reportId: string, now: Time) returns (r: Result<Report, Error>)
      requires Valid()
      modifies store`reports, store`events
      ensures Valid()
      ensures var (change, answer) := Do.GenerateReport(old(View()), roomId, actor, reportId, now);
              View() == Write(old(View()), change) && r == answer
    {
      hide CountedStats, Keyed, ResolveRole, RoleCanModerate, Legal;
      ReportIsLegal(View(), roomId, actor, reportId, now);
      KeyedStep(View(), Do.GenerateReport(View(), roomId, actor, reportId, now).0, now);
      var found := store.GetRoom(roomId);
      if found.Err? {
        return Err(found.error);
      }
      if !RoleCanModerate(ResolveRole(found.value, actor)) {
        return Err(PermissionDenied);
      }
      var stats := store.ReportStatsOf(roomId, now);
      var report := Report(reportId, roomId, stats, now);
      store.SaveReport(report);
      Publish(ReportCompleted, roomId, actor, "", now, OfReport(report));
      return Ok(report);
    }
  }

  /** Each listed copy is the stored session, at the position its id has in the order. */
  lemma ListedSessions(list: seq<ListenerSession>, sessions: map<string, ListenerSession>)
    requires Copies(list, sessions)
    ensures forall i :: 0 <= i < |list| ==>
              list[i].id in sessions && list[i] == sessions[list[i].id] && Ids(list)[i] == list[i].id
  {
  }

  lemma OneMoreEnded(s: State, ended: seq<ListenerSession>, i: nat)
    requires i < |ended|
    ensures EndSessions(s, ended[..i + 1]) == EndSession(EndSessions(s, ended[..i]), ended[i])
  {
    assert ended[..i + 1][..i] == ended[..i];
  }

  /** The state with some of the listed sessions expired so far. */
  function Expiring(s: State, ended: seq<ListenerSession>, now: Time): State {
    EndSessions(s, ended).(events := s.events + Do.ExpiryEvents(ended, now))
  }

  lemma NothingExpired(s: State, now: Time)
    ensures Expiring(s, [], now) == s
  {
  }

  lemma OneMoreExpired(s: State, ended: seq<ListenerSession>, last: ListenerSession, now: Time)
    ensures var before := Expiring(s, ended, now);
            Expiring(s, ended + [last], now)
            == EndSession(before, last).(events := before.events + Do.ExpiryEvents([last], now))
  {
  }

  lemma AllExpired(s: State, ended: seq<ListenerSession>, now: Time)
    ensures Expiring(s, ended, now) == Write(s, EndListeners(ended, Do.ExpiryEvents(ended, now)))
  {
    EndSessionsFrame(s, ended);
  }
}
