/** What a join tells its user they may do, and how long that stays true. */
module JoinLaws {
  import opened Base
  import opened VoiceTypes
  import opened VoiceState
  import opened VoiceRuns
  import VoiceLaws
  import RoomLaws
  import opened Answers
  import Channels
  import Reference
  import Do = VoiceCommands

  // ----- The answer -----

  /** The permissions, role, token and channels of a join answer, against the records `s` it was given on. */
  ghost predicate Fits(s: State, s': State, join: JoinResult, roomId: string, userId: string) {
    var may := join.permissions;
    && roomId in s.rooms && join.roomId == roomId
    && (may.canModerate <==> CanModerate(s, roomId, userId))
    && (may.canRecord <==> CanModerate(s, roomId, userId))
    && (may.canReport <==> CanModerate(s, roomId, userId))
    && (may.canSpeak <==> join.speaker.Some?)
    && (may.canSpeak <==> MaySpeak(s, roomId, userId))
    && join.speaker == (if MaySpeak(s, roomId, userId)
                        then Some(SpeakerDescriptor(s.rooms[roomId].liveKitRoomName, userId)) else None)
    && (join.mediaPath == LiveKitPath <==> join.speaker.Some?) && (join.listenerSessionId.Some? <==> join.speaker.None?)
    && |s'.grants| == |s.grants| + (if join.speaker.Some? then 1 else 0)
    && join.role == (if MaySpeak(s, roomId, userId) then Reference.SpeakingRole(s.rooms[roomId], userId) else Listener)
    && (forall channel :: channel in join.channels <==>
          || channel == "room:" + roomId || channel == "user:" + userId
          || (channel == "room:" + roomId + ":admins" && CanModerate(s, roomId, userId)))
  }

  lemma ChannelsListed(roomId: string, userId: string, role: Role, channel: string)
    ensures channel in Do.ChannelsFor(roomId, userId, role)
       <==> || channel == "room:" + roomId || channel == "user:" + userId
            || (channel == "room:" + roomId + ":admins" && RoleCanModerate(role))
  {
    var common, admins := ["room:" + roomId, "user:" + userId], ["room:" + roomId + ":admins"];
    assert channel in common <==> channel == "room:" + roomId || channel == "user:" + userId;
    assert channel in admins <==> channel == "room:" + roomId + ":admins";
  }

  lemma RoleFacts(s: State, roomId: string, userId: string)
    requires Keyed(s) && roomId in s.rooms
    ensures var role := Do.RoleOf(s, s.rooms[roomId], userId);
            && s.rooms[roomId].id == roomId
            && (RoleCanModerate(role) <==> CanModerate(s, roomId, userId))
            && (RoleUsesLiveKit(role) <==> MaySpeak(s, roomId, userId))
            && role == (if MaySpeak(s, roomId, userId)
                        then Reference.SpeakingRole(s.rooms[roomId], userId) else Listener)
  {
    hide MaySpeak, Reference.SpeakingRole;
    Channels.ModeratesByLists(s, roomId, userId);
    Reference.RolesAgree(s, roomId, userId);
  }

  /**
   Every successful answer of either way in: it lets its user moderate, record and report exactly if the moderating
   commands let them, and speak exactly if it carries a speaker descriptor, which is exactly when a token is issued.
   */
  lemma AnswerSaysWhatHolds(s: State, roomId: string, userId: string, id: string, now: Time)
    requires Keyed(s)
    ensures var (change, answer) := Do.JoinRoom(s, roomId, userId, id, now);
            answer.Ok? ==> Fits(s, Write(s, change), answer.value, roomId, userId)
    ensures var (change, answer) := Do.CreateSpeakerSession(s, roomId, userId, id, now);
            answer.Ok? ==> Fits(s, Write(s, change), answer.value, roomId, userId)
  {
    hide Do.RoleOf, MaySpeak, Reference.SpeakingRole, Do.ChannelsFor, CanModerate, Keyed;
    if roomId in s.rooms {
      RoleFacts(s, roomId, userId);
      forall channel {
        ChannelsListed(roomId, userId, Do.RoleOf(s, s.rooms[roomId], userId), channel);
      }
    }
  }

  // ----- How long it stays true -----

  /** A command that only those who can moderate the room may give. */
  predicate Moderating(cmd: Command, roomId: string, actor: string) {
    match cmd
    case StartRoom(room, user) => room == roomId && user == actor
    case FinishRoom(room, user, _) => room == roomId && user == actor
    case RemoveParticipant(room, user, _, _, _, _) => room == roomId && user == actor
    case DecideRequest(room, _, user, _, _) => room == roomId && user == actor
    case RevokeSpeaker(room, user, _, _) => room == roomId && user == actor
    case BlockSpeaking(room, user, _, _, _) => room == roomId && user == actor
    case UnblockSpeaking(room, user, _, _) => room == roomId && user == actor
    case StartRecording(room, user, _) => room == roomId && user == actor
    case StopRecording(room, _, user) => room == roomId && user == actor
    case GenerateReport(room, user, _) => room == roomId && user == actor
    case _ => false
  }

  lemma ModeratorsAreHeard(cfg: ServiceConfig, s: State, cmd: Command, now: Time, roomId: string, actor: string)
    requires Keyed(s) && Possible(s, cmd) && Moderating(cmd, roomId, actor) && roomId in s.rooms
    ensures CanModerate(s, roomId, actor) ==> RefusedFor(cfg, s, cmd, now) != Some(PermissionDenied)
    ensures !CanModerate(s, roomId, actor) ==>
              RefusedFor(cfg, s, cmd, now)
              == Some(if cmd.StartRecording? && !cfg.recordingEnabled then RecordingDisabled else PermissionDenied)
  {
    hide Possible, Keyed, RefusedFor, CanModerate, Moderates, Blocked;
    RefusedForFirstFailing(cfg, s, cmd, now);
    ModeratesIff(s, roomId, actor);
    ModeratedFirst(cfg, s, cmd, roomId, actor);
  }

  lemma ModeratedFirst(cfg: ServiceConfig, s: State, cmd: Command, roomId: string, actor: string)
    requires Moderating(cmd, roomId, actor) && roomId in s.rooms
    ensures Moderates(s, roomId, actor) ==> FirstFailing(Checks(cfg, s, cmd)) != Some(PermissionDenied)
    ensures !Moderates(s, roomId, actor) ==>
              FirstFailing(Checks(cfg, s, cmd))
              == Some(if cmd.StartRecording? && !cfg.recordingEnabled then RecordingDisabled else PermissionDenied)
  {
    hide Moderates, Blocked, FirstFailing;
    var own := ModeratorChecks(s, roomId, actor);
    if cmd.StartRecording? {
      var enabled := Check(cfg.recordingEnabled, RecordingDisabled);
      var live := Check(InStage(s, roomId, {Live}), RoomNotLive);
      assert Checks(cfg, s, cmd) == [enabled] + (own + [live]);
      FirstFailingOf([enabled], own + [live]);
      OneCheck(enabled);
      OneCheck(live);
      OwnChecks(s, roomId, actor, [live]);
    } else {
      var others := Checks(cfg, s, cmd)[2..];
      assert Checks(cfg, s, cmd) == own + others;
      OwnChecks(s, roomId, actor, others);
      if |others| == 2 {
        InOrder(others[0], others[1], []);
        assert [others[0], others[1]] + [] == others;
      }
      if |others| >= 1 {
        OneCheck(others[0]);
        assert |others| == 1 ==> others == [others[0]];
      } else {
        assert others == [];
        OneCheck(own[0]);
      }
    }
  }

  lemma OwnChecks(s: State, roomId: string, actor: string, others: seq<Check>)
    requires roomId in s.rooms
    ensures FirstFailing(ModeratorChecks(s, roomId, actor) + others)
         == if Moderates(s, roomId, actor) then FirstFailing(others) else Some(PermissionDenied)
  {
    ModeratedChecks(s, roomId, actor, others);
    ModeratesIff(s, roomId, actor);
  }

  lemma SpeakersAreHeard(cfg: ServiceConfig, s: State, cmd: Command, now: Time)
    requires Keyed(s) && Possible(s, cmd) && cmd.CreateSpeakerSession?
    ensures RefusedFor(cfg, s, cmd, now) == Some(PermissionDenied)
       <==> InStage(s, cmd.roomId, {Live}) && !MaySpeak(s, cmd.roomId, cmd.userId)
    ensures RefusedFor(cfg, s, cmd, now) == None
       <==> InStage(s, cmd.roomId, {Live}) && MaySpeak(s, cmd.roomId, cmd.userId)
  {
    hide Possible, Keyed, RefusedFor, MaySpeak, FirstFailing;
    RefusedForFirstFailing(cfg, s, cmd, now);
    var may := Check(MaySpeak(s, cmd.roomId, cmd.userId), PermissionDenied);
    InOrder(LiveChecks(s, cmd.roomId)[0], LiveChecks(s, cmd.roomId)[1], [may]);
    OneCheck(may);
  }

  lemma SpeakersStaySpeakers(cfg: ServiceConfig, ss: seq<State>, cmds: seq<Command>, times: seq<Time>, i: nat, j: nat,
                             roomId: string, userId: string)
    requires Run(cfg, ss, cmds, times) && i <= j < |ss| && MaySpeak(ss[i], roomId, userId)
    ensures MaySpeak(ss[j], roomId, userId)
  {
    hide Run, MaySpeak, Do.RoleOf, Keyed;
    assert roomId in ss[i].rooms by { SpeaksInRoom(ss[i], roomId, userId); }
    VoiceLaws.AlwaysKeyed(cfg, ss, cmds, times, i);
    VoiceLaws.AlwaysKeyed(cfg, ss, cmds, times, j);
    Channels.RoleOnlyRises(cfg, ss, cmds, times, i, j, roomId, userId);
    Reference.RolesAgree(ss[i], roomId, userId);
    Reference.RolesAgree(ss[j], roomId, userId);
  }

  lemma SpeaksInRoom(s: State, roomId: string, userId: string)
    requires MaySpeak(s, roomId, userId)
    ensures roomId in s.rooms
  {
  }

  /** `join` is what some way into the room answered the user in state `s`. */
  ghost predicate Answered(s: State, roomId: string, userId: string, join: JoinResult) {
    exists id, now ::
      || Do.JoinRoom(s, roomId, userId, id, now).1 == Ok(join)
      || Do.CreateSpeakerSession(s, roomId, userId, id, now).1 == Ok(join)
  }

  lemma AnsweredFits(s: State, roomId: string, userId: string, join: JoinResult)
    requires Keyed(s) && Answered(s, roomId, userId, join)
    ensures join.permissions.canModerate ==> CanModerate(s, roomId, userId)
    ensures join.permissions.canSpeak ==> MaySpeak(s, roomId, userId)
  {
    hide Do.JoinRoom, Do.CreateSpeakerSession, CanModerate, MaySpeak, Keyed;
    var id, now :| || Do.JoinRoom(s, roomId, userId, id, now).1 == Ok(join)
                   || Do.CreateSpeakerSession(s, roomId, userId, id, now).1 == Ok(join);
    AnswerSaysWhatHolds(s, roomId, userId, id, now);
  }

  /**
   A permission once answered is good ever after: in no later state is a moderating command of a user who was told
   they may moderate, or a speaker session of one who was told they may speak, refused for lack of permission.
   */
  lemma PermissionsLast(cfg: ServiceConfig, ss: seq<State>, cmds: seq<Command>, times: seq<Time>, i: nat, j: nat,
                        roomId: string, userId: string, join: JoinResult, cmd: Command, now: Time)
    requires Run(cfg, ss, cmds, times) && i <= j < |ss| && Answered(ss[i], roomId, userId, join)
    requires Possible(ss[j], cmd)
    ensures join.permissions.canModerate && Moderating(cmd, roomId, userId) ==>
              RefusedFor(cfg, ss[j], cmd, now) != Some(PermissionDenied)
    ensures join.permissions.canSpeak && cmd.CreateSpeakerSession? && cmd.roomId == roomId && cmd.userId == userId ==>
              RefusedFor(cfg, ss[j], cmd, now) != Some(PermissionDenied)
  {
    hide Run, Possible, Keyed, RefusedFor, MaySpeak, Moderating, Answered;
    VoiceLaws.AlwaysKeyed(cfg, ss, cmds, times, i);
    VoiceLaws.AlwaysKeyed(cfg, ss, cmds, times, j);
    AnsweredFits(ss[i], roomId, userId, join);
    if join.permissions.canModerate && Moderating(cmd, roomId, userId) {
      RoomLaws.AuthorityLasts(cfg, ss, cmds, times, i, j, roomId, userId);
      ModeratorsAreHeard(cfg, ss[j], cmd, now, roomId, userId);
    }
    if join.permissions.canSpeak && cmd.CreateSpeakerSession? && cmd.roomId == roomId && cmd.userId == userId {
      SpeakersStaySpeakers(cfg, ss, cmds, times, i, j, roomId, userId);
      SpeakersAreHeard(cfg, ss[j], cmd, now);
    }
  }

  // ----- From listener to speaker -----

  /** Nothing changed but the requests, and the events. */
  predicate OnlyRequests(s: State, s': State, requests: map<string, SpeakerRequest>) {
    s'.(presence := s.presence) == s.(requests := requests, events := s'.events) && Keyed(s')
  }

  lemma AskAccepted(cfg: ServiceConfig, s: State, roomId: string, userId: string, id: string, now: Time)
    requires Keyed(s) && NewId(s, id)
    requires InStage(s, roomId, {Live}) && !Blocked(s, roomId, userId) && !HasRequest(s, roomId, userId, RequestPending)
    ensures RefusedFor(cfg, s, RequestToSpeak(roomId, userId, id), now).None?
    ensures OnlyRequests(s, Apply(cfg, s, RequestToSpeak(roomId, userId, id), now),
                         s.requests[id := SpeakerRequest(id, roomId, userId, RequestPending, now, None, "", "")])
  {
    hide Blocked, HasRequest, Apply, RefusedFor, FirstFailing;
    var cmd := RequestToSpeak(roomId, userId, id);
    AcceptedIff(cfg, s, cmd, now);
    Reference.ServiceMeetsTable(cfg, s, cmd, now);
  }

  lemma DecisionAccepted(cfg: ServiceConfig, s: State, roomId: string, id: string, actor: string, reason: string,
                         approve: bool, now: Time)
    requires Keyed(s) && Moderates(s, roomId, actor) && Decidable(s, roomId, id)
    ensures var decide := DecideRequest(roomId, id, actor, reason, approve); var s' := Apply(cfg, s, decide, now);
            && RefusedFor(cfg, s, decide, now).None?
            && id in s'.requests && s'.requests[id].userId == s.requests[id].userId && s'.requests[id].roomId == roomId
            && s'.requests[id].status == (if approve then RequestApproved else RequestDeclined)
            && OnlyRequests(s, s', s.requests[id := s'.requests[id]])
  {
    hide Apply, RefusedFor, FirstFailing, OnLists;
    var decide := DecideRequest(roomId, id, actor, reason, approve);
    AcceptedIff(cfg, s, decide, now);
    Reference.ServiceMeetsTable(cfg, s, decide, now);
  }

  lemma ApprovedIff(s: State, s': State, roomId: string, userId: string, id: string)
    requires s'.rooms == s.rooms && id !in s.requests && id in s'.requests
    requires s'.requests == s.requests[id := s'.requests[id]]
    requires s'.requests[id].roomId == roomId && s'.requests[id].userId == userId
    ensures MaySpeak(s', roomId, userId)
       <==> MaySpeak(s, roomId, userId) || (roomId in s.rooms && s'.requests[id].status == RequestApproved)
  {
    if other :| && other in s.requests && s.requests[other].roomId == roomId && s.requests[other].userId == userId
                && s.requests[other].status == RequestApproved {
      assert s'.requests[other] == s.requests[other];
    }
  }

  /**
   Whoever is neither blocked nor waiting in a live room can get to speak: the request is accepted, so is any
   moderator's decision on it, and the speaker session is granted if the decision was to approve, and if it was not,
   exactly to those who could speak before.
   */
  lemma RequestLeadsToSpeaking(cfg: ServiceConfig, s: State, roomId: string, userId: string, moderator: string,
                               reason: string, approve: bool, requestId: string, sessionId: string,
                               asked: Time, decided: Time, joined: Time)
    requires Keyed(s) && NewId(s, requestId) && NewId(s, sessionId) && requestId != sessionId
    requires InStage(s, roomId, {Live}) && !Blocked(s, roomId, userId) && !HasRequest(s, roomId, userId, RequestPending)
    requires Moderates(s, roomId, moderator)
    ensures var ask := RequestToSpeak(roomId, userId, requestId);
            var decide := DecideRequest(roomId, requestId, moderator, reason, approve);
            var join := CreateSpeakerSession(roomId, userId, sessionId);
            var s1 := Apply(cfg, s, ask, asked);
            var s2 := Apply(cfg, s1, decide, decided);
            && RefusedFor(cfg, s, ask, asked).None? && RefusedFor(cfg, s1, decide, decided).None?
            && Possible(s2, join)
            && (RefusedFor(cfg, s2, join, joined).None? <==> approve || MaySpeak(s, roomId, userId))
  {
    hide Apply, RefusedFor, Blocked, HasRequest, FirstFailing, OnLists, Checks, MaySpeak;
    var ask := RequestToSpeak(roomId, userId, requestId);
    AskAccepted(cfg, s, roomId, userId, requestId, asked);
    var s1 := Apply(cfg, s, ask, asked);
    DecisionAccepted(cfg, s1, roomId, requestId, moderator, reason, approve, decided);
    var s2 := Apply(cfg, s1, DecideRequest(roomId, requestId, moderator, reason, approve), decided);
    var join := CreateSpeakerSession(roomId, userId, sessionId);
    ApprovedIff(s, s2, roomId, userId, requestId);
    SpeakersAreHeard(cfg, s2, join, joined);
  }
}
