/**
 Which commands are accepted, and what the others are refused for: each command has a list of checks, stated on the
 records alone, and answers the refusal of the first one that fails.
 */
module Answers {
  import opened Base
  import Text
  import opened VoiceTypes
  import opened VoiceState
  import opened VoiceRuns
  import Do = VoiceCommands

  // ----- What the checks ask of the records -----

  /** The room names the user as its owner, an admin or a moderator; the empty user is nobody. */
  predicate OnLists(room: Room, userId: string) {
    userId != "" && (room.ownerId == userId || userId in room.adminIds || userId in room.moderatorIds)
  }

  predicate Moderates(s: State, roomId: string, userId: string) {
    roomId in s.rooms && OnLists(s.rooms[roomId], userId)
  }

  predicate HasRequest(s: State, roomId: string, userId: string, status: RequestStatus) {
    exists id :: && id in s.requests && s.requests[id].roomId == roomId && s.requests[id].userId == userId
                 && s.requests[id].status == status
  }

  predicate Blocked(s: State, roomId: string, userId: string) {
    exists id :: && id in s.blocks && s.blocks[id].roomId == roomId && s.blocks[id].userId == userId
                 && s.blocks[id].unblockedAt.None?
  }

  /** Those on the lists of the room, and those with an approved request. */
  predicate MaySpeak(s: State, roomId: string, userId: string) {
    Moderates(s, roomId, userId) || (roomId in s.rooms && HasRequest(s, roomId, userId, RequestApproved))
  }

  predicate InStage(s: State, roomId: string, stages: set<RoomStatus>) {
    roomId in s.rooms && s.rooms[roomId].status in stages
  }

  predicate OwnsSession(s: State, roomId: string, sessionId: string, userId: string) {
    sessionId in s.sessions && s.sessions[sessionId].roomId == roomId && s.sessions[sessionId].userId == userId
  }

  predicate IsActive(s: State, sessionId: string) {
    sessionId in s.sessions && s.sessions[sessionId].status == SessionActive
  }

  predicate Decidable(s: State, roomId: string, requestId: string) {
    requestId in s.requests && s.requests[requestId].roomId == roomId && s.requests[requestId].status == RequestPending
  }

  predicate HasRecording(s: State, roomId: string, recordingId: string) {
    recordingId in s.recordings && s.recordings[recordingId].roomId == roomId
  }

  // ----- The checks of each command, in order -----

  datatype Check = Check(passes: bool, refusal: Error)

  function ModeratorChecks(s: State, roomId: string, actor: string): seq<Check> {
    [Check(roomId in s.rooms, RoomNotFound), Check(Moderates(s, roomId, actor), PermissionDenied)]
  }

  function LiveChecks(s: State, roomId: string): seq<Check> {
    [Check(roomId in s.rooms, RoomNotFound), Check(InStage(s, roomId, {Live}), RoomNotLive)]
  }

  function OwnerChecks(s: State, roomId: string, sessionId: string, userId: string): seq<Check> {
    [Check(sessionId in s.sessions, ListenerSessionNotFound),
     Check(OwnsSession(s, roomId, sessionId, userId), PermissionDenied)]
  }

  function Checks(cfg: ServiceConfig, s: State, cmd: Command): seq<Check> {
    match cmd
    case CreateRoom(title, ownerId, _, _, _, _, _) =>
      [Check(!Text.AllSpace(title) && !Text.AllSpace(ownerId), InvalidArgument)]
    case StartRoom(roomId, actor) =>
      ModeratorChecks(s, roomId, actor) + [Check(InStage(s, roomId, {Draft, Scheduled}), InvalidRoomState)]
    case FinishRoom(roomId, actor, _) =>
      ModeratorChecks(s, roomId, actor) + [Check(InStage(s, roomId, {Live, Scheduled}), InvalidRoomState)]
    case JoinRoom(roomId, _, _) => LiveChecks(s, roomId)
    case CreateSpeakerSession(roomId, userId, _) =>
      LiveChecks(s, roomId) + [Check(MaySpeak(s, roomId, userId), PermissionDenied)]
    case Heartbeat(roomId, id, userId) =>
      OwnerChecks(s, roomId, id, userId) + [Check(IsActive(s, id), ListenerSessionNotFound)]
    case LeaveListener(roomId, id, userId, _) => OwnerChecks(s, roomId, id, userId)
    case RemoveParticipant(roomId, actor, _, _, _, _) => ModeratorChecks(s, roomId, actor)
    case ExpireStale(_, _, _) => []
    case CloseRoomSessions(_, _) => []
    case RequestToSpeak(roomId, userId, _) =>
      LiveChecks(s, roomId) + [Check(!Blocked(s, roomId, userId), SpeakerIsBlocked),
                               Check(!HasRequest(s, roomId, userId, RequestPending), Conflict)]
    case DecideRequest(roomId, id, actor, _, _) =>
      ModeratorChecks(s, roomId, actor) + [Check(id in s.requests, SpeakerRequestNotFound),
                                           Check(Decidable(s, roomId, id), InvalidRoomState)]
    case RevokeSpeaker(roomId, actor, _, _) => ModeratorChecks(s, roomId, actor)
    case BlockSpeaking(roomId, actor, _, _, _) => ModeratorChecks(s, roomId, actor)
    case UnblockSpeaking(roomId, actor, target, _) =>
      ModeratorChecks(s, roomId, actor) + [Check(Blocked(s, roomId, target), SpeakingBlockNotFound)]
    case StartRecording(roomId, actor, _) =>
      [Check(cfg.recordingEnabled, RecordingDisabled)] + ModeratorChecks(s, roomId, actor)
      + [Check(InStage(s, roomId, {Live}), RoomNotLive)]
    case StopRecording(roomId, id, actor) =>
      ModeratorChecks(s, roomId, actor) + [Check(HasRecording(s, roomId, id), RecordingNotFound)]
    case GenerateReport(roomId, actor, _) => ModeratorChecks(s, roomId, actor)
  }

  function FirstFailing(checks: seq<Check>): Option<Error> {
    if checks == [] then None
    else if !checks[0].passes then Some(checks[0].refusal)
    else FirstFailing(checks[1..])
  }

  lemma {:induction false} AllPassIff(checks: seq<Check>)
    ensures FirstFailing(checks).None? <==> forall k :: 0 <= k < |checks| ==> checks[k].passes
  {
    if checks != [] {
      AllPassIff(checks[1..]);
      assert forall k :: 1 <= k < |checks| ==> checks[k] == checks[1..][k - 1];
    }
  }

  // ----- The answers -----

  function Refusal<T>(answer: Result<T, Error>): Option<Error> {
    if answer.Ok? then None else Some(answer.error)
  }

  /** What the command is refused for, if it is. */
  ghost function RefusedFor(cfg: ServiceConfig, s: State, cmd: Command, now: Time): Option<Error>
    requires Possible(s, cmd)
  {
    match cmd
    case CreateRoom(title, ownerId, adminIds, moderatorIds, roomId, streamId, mode) =>
      Refusal(Do.CreateRoom(cfg, title, ownerId, adminIds, moderatorIds, roomId, streamId, mode, now).1)
    case StartRoom(roomId, actor) => Refusal(Do.StartRoom(s, roomId, actor, now).1)
    case FinishRoom(roomId, actor, reason) => Refusal(Do.FinishRoom(s, roomId, actor, reason, now).1)
    case JoinRoom(roomId, userId, id) => Refusal(Do.JoinRoom(s, roomId, userId, id, now).1)
    case CreateSpeakerSession(roomId, userId, id) => Refusal(Do.CreateSpeakerSession(s, roomId, userId, id, now).1)
    case Heartbeat(roomId, id, userId) => Refusal(Do.Heartbeat(s, roomId, id, userId, now).1)
    case LeaveListener(roomId, id, userId, leaveType) =>
      Refusal(Do.LeaveListener(s, roomId, id, userId, leaveType, now).1)
    case RemoveParticipant(roomId, actor, target, reason, order, lag) =>
      Refusal(Do.RemoveParticipant(s, roomId, actor, target, reason, order, now, now + lag).1)
    case ExpireStale(_, _, _) => None
    case CloseRoomSessions(_, _) => None
    case RequestToSpeak(roomId, userId, id) => Refusal(Do.RequestToSpeak(s, roomId, userId, id, now).1)
    case DecideRequest(roomId, id, actor, reason, approve) =>
      Refusal(Do.DecideRequest(s, roomId, id, actor, reason, approve, now).1)
    case RevokeSpeaker(roomId, actor, target, reason) =>
      Refusal(Do.RevokeSpeaker(s, roomId, actor, target, reason, now).1)
    case BlockSpeaking(roomId, actor, target, reason, id) =>
      Refusal(Do.BlockSpeaking(s, roomId, actor, target, reason, id, now).1)
    case UnblockSpeaking(roomId, actor, target, id) =>
      Refusal(Do.UnblockSpeaking(s, roomId, actor, target, id, now).1)
    case StartRecording(roomId, actor, id) => Refusal(Do.StartRecording(cfg, s, roomId, actor, id, now).1)
    case StopRecording(roomId, id, actor) => Refusal(Do.StopRecording(cfg, s, roomId, id, actor, now).1)
    case GenerateReport(roomId, actor, id) => Refusal(Do.GenerateReport(s, roomId, actor, id, now).1)
  }

  lemma ModeratesIff(s: State, roomId: string, userId: string)
    ensures Moderates(s, roomId, userId) <==> CanModerate(s, roomId, userId)
  {
  }

  lemma HasRequestIff(s: State, roomId: string, userId: string, status: RequestStatus)
    ensures HasRequest(s, roomId, userId, status) <==> RequestsOf(s.requests, roomId, userId, status) != {}
  {
    if id :| && id in s.requests && s.requests[id].roomId == roomId && s.requests[id].userId == userId
             && s.requests[id].status == status {
      assert id in RequestsOf(s.requests, roomId, userId, status);
    }
  }

  lemma BlockedIff(s: State, roomId: string, userId: string)
    ensures Blocked(s, roomId, userId) <==> ActiveBlocks(s.blocks, roomId, userId) != {}
  {
    if id :| && id in s.blocks && s.blocks[id].roomId == roomId && s.blocks[id].userId == userId
             && s.blocks[id].unblockedAt.None? {
      assert id in ActiveBlocks(s.blocks, roomId, userId);
    }
  }

  lemma MaySpeakIff(s: State, roomId: string, userId: string)
    requires Keyed(s) && roomId in s.rooms
    ensures MaySpeak(s, roomId, userId) <==> RoleUsesLiveKit(Do.RoleOf(s, s.rooms[roomId], userId))
  {
    hide RequestsOf, HasRequest;
    HasRequestIff(s, roomId, userId, RequestApproved);
  }

  /** A list of checks behind another counts when all of those pass. */
  lemma {:induction false} FirstFailingOf(first: seq<Check>, others: seq<Check>)
    ensures FirstFailing(first + others)
         == if FirstFailing(first).None? then FirstFailing(others) else FirstFailing(first)
  {
    if first == [] {
      assert first + others == others;
    } else {
      FirstFailingOf(first[1..], others);
      assert (first + others)[1..] == first[1..] + others;
    }
  }

  /** What a list of two checks, and one after it, comes to. */
  lemma InOrder(a: Check, b: Check, others: seq<Check>)
    ensures FirstFailing([a, b] + others)
         == if !a.passes then Some(a.refusal) else if !b.passes then Some(b.refusal) else FirstFailing(others)
  {
    FirstFailingOf([a, b], others);
    assert [a, b][1..] == [b];
  }

  lemma OneCheck(check: Check)
    ensures FirstFailing([check]) == if check.passes then None else Some(check.refusal)
    ensures FirstFailing([]) == None
  {
  }

  lemma ModeratedChecks(s: State, roomId: string, actor: string, others: seq<Check>)
    ensures FirstFailing(ModeratorChecks(s, roomId, actor) + others)
         == var found := Do.ModeratedRoom(s, roomId, actor);
            if found.Err? then Some(found.error) else FirstFailing(others)
    ensures FirstFailing(ModeratorChecks(s, roomId, actor)) == Refusal(Do.ModeratedRoom(s, roomId, actor))
  {
    var stored, may := Check(roomId in s.rooms, RoomNotFound), Check(Moderates(s, roomId, actor), PermissionDenied);
    InOrder(stored, may, others);
    InOrder(stored, may, []);
    assert [stored, may] + [] == [stored, may];
  }

  // ----- Each command answers its first failing check -----

  lemma CreateRefusal(cfg: ServiceConfig, s: State, cmd: Command, now: Time)
    requires cmd.CreateRoom? && Possible(s, cmd)
    ensures RefusedFor(cfg, s, cmd, now) == FirstFailing(Checks(cfg, s, cmd))
  {
    hide Text.TrimSpace, Do.UniqueStrings, Unused;
    Text.BlankIff(cmd.title);
    Text.BlankIff(cmd.ownerId);
  }

  /** The commands that need a moderator and nothing else. */
  lemma ModeratorRefusal(cfg: ServiceConfig, s: State, cmd: Command, now: Time)
    requires cmd.RemoveParticipant? || cmd.RevokeSpeaker? || cmd.BlockSpeaking? || cmd.GenerateReport?
    requires Possible(s, cmd)
    ensures RefusedFor(cfg, s, cmd, now) == FirstFailing(Checks(cfg, s, cmd))
  {
    hide Text.TrimSpace, Do.ModeratedRoom, FirstFailing, ModeratorChecks, StatsOf, Unused, Do.RemoveEach, ActiveBlocks;
    var roomId := cmd.roomId;
    ModeratedChecks(s, roomId, cmd.actor, []);
  }

  /** The commands that move a room on or stop its recording. */
  lemma RoomRefusal(cfg: ServiceConfig, s: State, cmd: Command, now: Time)
    requires cmd.StartRoom? || cmd.FinishRoom? || cmd.StopRecording?
    requires Possible(s, cmd)
    ensures RefusedFor(cfg, s, cmd, now) == FirstFailing(Checks(cfg, s, cmd))
  {
    hide Text.TrimSpace, ModeratorChecks, Do.StorageFor, Unused, FirstFailing, Do.WholeSeconds;
    var checks := Checks(cfg, s, cmd);
    var last := checks[|checks| - 1];
    ModeratedChecks(s, cmd.roomId, cmd.actor, [last]);
    OneCheck(last);
  }

  lemma StartRecordingRefusal(cfg: ServiceConfig, s: State, cmd: Command, now: Time)
    requires cmd.StartRecording? && Possible(s, cmd)
    ensures RefusedFor(cfg, s, cmd, now) == FirstFailing(Checks(cfg, s, cmd))
  {
    hide Text.TrimSlashes, Do.StorageFor, Unused, ModeratorChecks, FirstFailing;
    var enabled := Check(cfg.recordingEnabled, RecordingDisabled);
    var live := Check(InStage(s, cmd.roomId, {Live}), RoomNotLive);
    FirstFailingOf([enabled], ModeratorChecks(s, cmd.roomId, cmd.actor) + [live]);
    assert Checks(cfg, s, cmd) == [enabled] + (ModeratorChecks(s, cmd.roomId, cmd.actor) + [live]);
    OneCheck(enabled);
    OneCheck(live);
    ModeratedChecks(s, cmd.roomId, cmd.actor, [live]);
  }

  /** The two ways into a room. */
  lemma JoinRefusal(cfg: ServiceConfig, s: State, cmd: Command, now: Time)
    requires cmd.JoinRoom? || cmd.CreateSpeakerSession?
    requires Keyed(s) && Possible(s, cmd)
    ensures RefusedFor(cfg, s, cmd, now) == FirstFailing(Checks(cfg, s, cmd))
  {
    hide Do.RoleOf, Unused, Keyed, RoleUsesLiveKit, Do.SpeakerResult, Do.ListenerResult, FirstFailing, MaySpeak;
    var stored, live := Check(cmd.roomId in s.rooms, RoomNotFound), Check(InStage(s, cmd.roomId, {Live}), RoomNotLive);
    var may := Check(MaySpeak(s, cmd.roomId, cmd.userId), PermissionDenied);
    InOrder(stored, live, [may]);
    InOrder(stored, live, []);
    OneCheck(may);
    assert [stored, live] + [] == [stored, live];
    if cmd.roomId in s.rooms {
      MaySpeakIff(s, cmd.roomId, cmd.userId);
    }
  }

  /** The commands of a listener about a session. */
  lemma ListenerRefusal(cfg: ServiceConfig, s: State, cmd: Command, now: Time)
    requires cmd.Heartbeat? || cmd.LeaveListener?
    requires Possible(s, cmd)
    ensures RefusedFor(cfg, s, cmd, now) == FirstFailing(Checks(cfg, s, cmd))
  {
    hide Text.TrimSpace, Unused, FirstFailing;
    var stored := Check(cmd.sessionId in s.sessions, ListenerSessionNotFound);
    var own := Check(OwnsSession(s, cmd.roomId, cmd.sessionId, cmd.userId), PermissionDenied);
    var active := Check(IsActive(s, cmd.sessionId), ListenerSessionNotFound);
    InOrder(stored, own, [active]);
    InOrder(stored, own, []);
    assert [stored, own] + [] == [stored, own];
    OneCheck(active);
  }

  /** Asking to speak. */
  lemma RequestRefusal(cfg: ServiceConfig, s: State, cmd: Command, now: Time)
    requires cmd.RequestToSpeak? && Possible(s, cmd)
    ensures RefusedFor(cfg, s, cmd, now) == FirstFailing(Checks(cfg, s, cmd))
  {
    hide Unused, FirstFailing, Blocked, HasRequest, ActiveBlocks, RequestsOf;
    var stored, live := Check(cmd.roomId in s.rooms, RoomNotFound), Check(InStage(s, cmd.roomId, {Live}), RoomNotLive);
    var unblocked := Check(!Blocked(s, cmd.roomId, cmd.userId), SpeakerIsBlocked);
    var single := Check(!HasRequest(s, cmd.roomId, cmd.userId, RequestPending), Conflict);
    InOrder(stored, live, [unblocked, single]);
    InOrder(unblocked, single, []);
    assert [unblocked, single] + [] == [unblocked, single];
    OneCheck(single);
    BlockedIff(s, cmd.roomId, cmd.userId);
    HasRequestIff(s, cmd.roomId, cmd.userId, RequestPending);
  }

  lemma DecisionRefusal(cfg: ServiceConfig, s: State, cmd: Command, now: Time)
    requires cmd.DecideRequest? && Possible(s, cmd)
    ensures RefusedFor(cfg, s, cmd, now) == FirstFailing(Checks(cfg, s, cmd))
  {
    hide Text.TrimSpace, Unused, FirstFailing, Do.ModeratedRoom, ModeratorChecks;
    var stored := Check(cmd.requestId in s.requests, SpeakerRequestNotFound);
    var undecided := Check(Decidable(s, cmd.roomId, cmd.requestId), InvalidRoomState);
    ModeratedChecks(s, cmd.roomId, cmd.actor, [stored, undecided]);
    InOrder(stored, undecided, []);
    assert [stored, undecided] + [] == [stored, undecided];
    OneCheck(undecided);
  }

  lemma UnblockRefusal(cfg: ServiceConfig, s: State, cmd: Command, now: Time)
    requires cmd.UnblockSpeaking? && Possible(s, cmd)
    ensures RefusedFor(cfg, s, cmd, now) == FirstFailing(Checks(cfg, s, cmd))
  {
    hide Unused, FirstFailing, Do.ModeratedRoom, ModeratorChecks, Blocked;
    var blocked := Check(Blocked(s, cmd.roomId, cmd.target), SpeakingBlockNotFound);
    ModeratedChecks(s, cmd.roomId, cmd.actor, [blocked]);
    OneCheck(blocked);
    BlockedIff(s, cmd.roomId, cmd.target);
  }

  lemma NeverRefused(cfg: ServiceConfig, s: State, cmd: Command, now: Time)
    requires (cmd.ExpireStale? || cmd.CloseRoomSessions?) && Possible(s, cmd)
    ensures RefusedFor(cfg, s, cmd, now) == FirstFailing(Checks(cfg, s, cmd))
  {
  }

  /** The acceptance rule of the whole service: a command is refused for the first of its checks that fails, if any. */
  lemma RefusedForFirstFailing(cfg: ServiceConfig, s: State, cmd: Command, now: Time)
    requires Keyed(s) && Possible(s, cmd)
    ensures RefusedFor(cfg, s, cmd, now) == FirstFailing(Checks(cfg, s, cmd))
  {
    hide Possible, Keyed, RefusedFor, Checks, FirstFailing;
    match cmd
    case CreateRoom(_, _, _, _, _, _, _) => CreateRefusal(cfg, s, cmd, now);
    case StartRoom(_, _) => RoomRefusal(cfg, s, cmd, now);
    case FinishRoom(_, _, _) => RoomRefusal(cfg, s, cmd, now);
    case JoinRoom(_, _, _) => JoinRefusal(cfg, s, cmd, now);
    case CreateSpeakerSession(_, _, _) => JoinRefusal(cfg, s, cmd, now);
    case Heartbeat(_, _, _) => ListenerRefusal(cfg, s, cmd, now);
    case LeaveListener(_, _, _, _) => ListenerRefusal(cfg, s, cmd, now);
    case RemoveParticipant(_, _, _, _, _, _) => ModeratorRefusal(cfg, s, cmd, now);
    case ExpireStale(_, _, _) => NeverRefused(cfg, s, cmd, now);
    case CloseRoomSessions(_, _) => NeverRefused(cfg, s, cmd, now);
    case RequestToSpeak(_, _, _) => RequestRefusal(cfg, s, cmd, now);
    case DecideRequest(_, _, _, _, _) => DecisionRefusal(cfg, s, cmd, now);
    case RevokeSpeaker(_, _, _, _) => ModeratorRefusal(cfg, s, cmd, now);
    case BlockSpeaking(_, _, _, _, _) => ModeratorRefusal(cfg, s, cmd, now);
    case UnblockSpeaking(_, _, _, _) => UnblockRefusal(cfg, s, cmd, now);
    case StartRecording(_, _, _) => StartRecordingRefusal(cfg, s, cmd, now);
    case StopRecording(_, _, _) => RoomRefusal(cfg, s, cmd, now);
    case GenerateReport(_, _, _) => ModeratorRefusal(cfg, s, cmd, now);
  }

  /** So it is accepted exactly when all of them pass, and a refused command writes nothing. */
  lemma AcceptedIff(cfg: ServiceConfig, s: State, cmd: Command, now: Time)
    requires Keyed(s) && Possible(s, cmd)
    ensures var checks := Checks(cfg, s, cmd);
            RefusedFor(cfg, s, cmd, now).None? <==> forall k :: 0 <= k < |checks| ==> checks[k].passes
    ensures RefusedFor(cfg, s, cmd, now).Some? ==> Apply(cfg, s, cmd, now) == s
  {
    hide Possible, Keyed, RefusedFor, Checks, FirstFailing, Apply;
    RefusedForFirstFailing(cfg, s, cmd, now);
    AllPassIff(Checks(cfg, s, cmd));
    if RefusedFor(cfg, s, cmd, now).Some? {
      RefusalWritesNothing(cfg, s, cmd, now);
    }
  }

  lemma RefusalWritesNothing(cfg: ServiceConfig, s: State, cmd: Command, now: Time)
    requires Possible(s, cmd) && RefusedFor(cfg, s, cmd, now).Some?
    ensures Apply(cfg, s, cmd, now) == s
  {
    hide Text.TrimSpace, Text.TrimSlashes, Do.ModeratedRoom, Do.OwnSession, Do.UniqueStrings, Do.RoleOf, StatsOf,
         Unused,
         Do.StorageFor, Do.WholeSeconds, ActiveBlocks, RequestsOf, Stale, ActiveIn, ActiveOf, Do.Lists, Do.ListsStale;
  }
}
