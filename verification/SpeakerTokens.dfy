/** Who is given a LiveKit token, and what a join hands out. */
module SpeakerTokens {
  import opened Base
  import opened VoiceTypes
  import opened VoiceState
  import opened VoiceRuns
  import opened VoiceLaws
  import RoomLaws
  import Do = VoiceCommands

  /** Among the first `logged` events one approves the user as a speaker, by someone who can moderate the room. */
  ghost predicate ApprovedInLog(s: State, roomId: string, userId: string, logged: nat) {
    exists k :: 0 <= k < logged && k < |s.events| && IsApproval(s, s.events[k], roomId, userId)
  }

  predicate IsApproval(s: State, e: Event, roomId: string, userId: string) {
    && e.eventType == SpeakerApproved && e.roomId == roomId && e.targetUserId == userId
    && CanModerate(s, roomId, e.actorUserId)
  }

  ghost predicate Justified(s: State, g: Grant) {
    && g.logged <= |s.events|
    && (CanModerate(s, g.roomId, g.userId) || ApprovedInLog(s, g.roomId, g.userId, g.logged))
  }

  ghost predicate TokensJustified(s: State) {
    && (forall i :: 0 <= i < |s.grants| ==> Justified(s, s.grants[i]))
    && (forall id :: id in s.requests && s.requests[id].status == RequestApproved ==>
          ApprovedInLog(s, s.requests[id].roomId, s.requests[id].userId, |s.events|))
  }

  /** Approvals and authority only accumulate as the log grows and rooms move on. */
  lemma ApprovalsPersist(s: State, s': State)
    requires s.events <= s'.events && RoomsSucceed(s.rooms, s'.rooms)
    ensures forall roomId, userId, logged: nat, later: nat ::
              logged <= later && ApprovedInLog(s, roomId, userId, logged) ==> ApprovedInLog(s', roomId, userId, later)
    ensures forall g :: Justified(s, g) ==> Justified(s', g)
  {
  }

  lemma LogsGrow(s: State, change: Change)
    ensures s.events <= Write(s, change).events
    ensures Write(s, change).grants == s.grants
              + (if change.PutSpeaker? then [Grant(change.participant.roomId, change.participant.userId,
                                                   change.participant.role, |s.events|)] else [])
    ensures !change.PutRequest? ==> Write(s, change).requests == s.requests
  {
    if change.EndListeners? {
      EndSessionsFrame(s, change.ended);
    }
  }

  lemma GrantIsJustified(s: State, p: ParticipantSession)
    requires Keyed(s) && TokensJustified(s) && LegalSpeaker(s, p)
    ensures Justified(s, Grant(p.roomId, p.userId, p.role, |s.events|))
  {
  }

  lemma RequestStaysJustified(s: State, request: SpeakerRequest, e: Event, now: Time)
    requires LegalRequest(s, request, e, now) && request.status == RequestApproved
    ensures ApprovedInLog(Write(s, PutRequest(request, e)), request.roomId, request.userId, |s.events| + 1)
  {
    var s' := Write(s, PutRequest(request, e));
    assert IsApproval(s', s'.events[|s.events|], request.roomId, request.userId);
  }

  lemma TokensStep(s: State, change: Change, now: Time)
    requires Keyed(s) && RoomsStaged(s) && TokensJustified(s) && Legal(s, change, now)
    ensures TokensJustified(Write(s, change))
  {
    hide LegalRoom, LegalRecording, LegalListener, LegalBlock, LegalReport, LegalRequest, LegalSpeaker;
    hide ApprovedInLog, Justified, RoomsSucceed, OneStage, Keyed, RoomsStaged;
    var s' := Write(s, change);
    RoomsStep(s, change, now);
    LogsGrow(s, change);
    ApprovalsPersist(s, s');
    if change.PutSpeaker? {
      GrantIsJustified(s, change.participant);
    }
    forall id | id in s'.requests && s'.requests[id].status == RequestApproved
      ensures ApprovedInLog(s', s'.requests[id].roomId, s'.requests[id].userId, |s'.events|)
    {
      if change.PutRequest? && id == change.request.id {
        RequestStaysJustified(s, change.request, change.event, now);
      } else {
        assert ApprovedInLog(s, s.requests[id].roomId, s.requests[id].userId, |s.events|);
      }
    }
  }

  lemma {:induction false} TokensAlwaysJustified(cfg: ServiceConfig, ss: seq<State>, cmds: seq<Command>,
                                                 times: seq<Time>, i: nat)
    requires Run(cfg, ss, cmds, times) && i < |ss|
    ensures TokensJustified(ss[i])
  {
    if i > 0 {
      hide Legal, RoomLaws.Sound, Write, Decide, TokensJustified, Keyed, RoomsStaged;
      TokensAlwaysJustified(cfg, ss, cmds, times, i - 1);
      RoomLaws.AlwaysSound(cfg, ss, cmds, times, i - 1);
      SoundParts(ss[i - 1]);
      StepOf(cfg, ss, cmds, times, i - 1);
      TokensStep(ss[i - 1], Decide(cfg, ss[i - 1], cmds[i - 1], times[i - 1]), times[i - 1]);
    }
  }

  lemma SoundParts(s: State)
    requires RoomLaws.Sound(s)
    ensures Keyed(s) && RoomsStaged(s)
  {
  }

  /**
   Every LiveKit token ever issued went to a user on the room's owner, admin or moderator list, or to one whose
   approval by someone who can moderate the room was in the log before the token was issued.
   */
  lemma TokensGoToSpeakersOnly(cfg: ServiceConfig, ss: seq<State>, cmds: seq<Command>, times: seq<Time>, i: nat, n: nat)
    requires Run(cfg, ss, cmds, times) && i < |ss| && n < |ss[i].grants|
    ensures var g := ss[i].grants[n];
            || CanModerate(ss[i], g.roomId, g.userId)
            || exists k :: 0 <= k < g.logged && k < |ss[i].events| && IsApproval(ss[i], ss[i].events[k], g.roomId, g.userId)
  {
    TokensAlwaysJustified(cfg, ss, cmds, times, i);
    assert Justified(ss[i], ss[i].grants[n]);
  }

  /** The state after a speaker was admitted: one participant session and one token more, listeners as before. */
  predicate SpeakerAdmitted(s: State, s': State, roomId: string, userId: string, id: string) {
    && s'.participants.Keys == s.participants.Keys + {id}
    && s'.participants[id].userId == userId && s'.participants[id].roomId == roomId
    && |s'.grants| == |s.grants| + 1
    && s'.grants[|s.grants|].userId == userId && s'.grants[|s.grants|].roomId == roomId
    && s'.sessions == s.sessions
  }

  /** The state after a listener was admitted: one listener session more, participants and tokens as before. */
  predicate ListenerAdmitted(s: State, s': State, roomId: string, userId: string, id: string) {
    && s'.sessions.Keys == s.sessions.Keys + {id}
    && s'.sessions[id].userId == userId && s'.sessions[id].roomId == roomId
    && s'.sessions[id].status == SessionActive
    && s'.participants == s.participants && s'.grants == s.grants
  }

  /** The descriptors of a join answer match the role: LiveKit and a speaker, or LL-HLS and a listener session. */
  predicate AnswersRole(s: State, join: JoinResult, roomId: string, userId: string, id: string) {
    && roomId in s.rooms && join.roomId == roomId
    && if RoleUsesLiveKit(join.role) then
         && join.mediaPath == LiveKitPath && join.listenerSessionId == None
         && join.speaker == Some(SpeakerDescriptor(s.rooms[roomId].liveKitRoomName, userId))
       else
         join.mediaPath == LLHLSPath && join.listenerSessionId == Some(id) && join.speaker == None
  }

  /**
   A join hands out one kind of media only. A speaker gets a participant session, a token and a LiveKit descriptor;
   a listener gets a listener session and its id, and no token; a refused join changes nothing.
   */
  lemma JoinIsOneKind(s: State, roomId: string, userId: string, id: string, now: Time)
    requires Keyed(s) && NewId(s, id)
    ensures var (change, answer) := Do.JoinRoom(s, roomId, userId, id, now);
            match answer
            case Err(_) => change == Nothing
            case Ok(join) =>
              && AnswersRole(s, join, roomId, userId, id)
              && (if RoleUsesLiveKit(join.role) then SpeakerAdmitted(s, Write(s, change), roomId, userId, id)
                  else ListenerAdmitted(s, Write(s, change), roomId, userId, id))
  {
    hide Do.PermissionsFor, Do.ChannelsFor, Do.RoleOf, Write, SpeakerAdmitted, ListenerAdmitted;
    var (change, answer) := Do.JoinRoom(s, roomId, userId, id, now);
    if answer.Ok? {
      if change.PutSpeaker? {
        AdmitsSpeaker(s, change.participant);
      } else {
        AdmitsListener(s, change.session, change.event);
      }
    }
  }

  lemma AdmitsSpeaker(s: State, p: ParticipantSession)
    ensures SpeakerAdmitted(s, Write(s, PutSpeaker(p)), p.roomId, p.userId, p.id)
  {
  }

  lemma AdmitsListener(s: State, session: ListenerSession, e: Event)
    requires session.status == SessionActive
    ensures ListenerAdmitted(s, Write(s, PutListener(session, e)), session.roomId, session.userId, session.id)
  {
  }
}
