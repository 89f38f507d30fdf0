/** What single commands achieve for the user they name, and what undoes it. */
module VoiceEffects {
  import opened Base
  import Text
  import opened VoiceTypes
  import opened VoiceState
  import opened VoiceRuns
  import opened VoiceLaws
  import Do = VoiceCommands

  // ----- Blocking and unblocking -----

  /** A block stands: exactly one is active, and the user's request to speak is refused for it. */
  lemma BlockSilences(s: State, roomId: string, actor: string, target: string, reason: string, id: string, now: Time,
                      requestId: string, later: Time)
    requires Keyed(s) && SpeakingSound(s) && Possible(s, BlockSpeaking(roomId, actor, target, reason, id))
    requires Do.BlockSpeaking(s, roomId, actor, target, reason, id, now).1.Ok?
    ensures var (change, answer) := Do.BlockSpeaking(s, roomId, actor, target, reason, id, now);
            var s' := Write(s, change);
            && ActiveBlocks(s'.blocks, roomId, target) == {answer.value.id}
            && s'.rooms == s.rooms
            && (s.rooms[roomId].status == Live ==>
                  Do.RequestToSpeak(s', roomId, target, requestId, later) == (Nothing, Err(SpeakerIsBlocked)))
  {
    hide Text.TrimSpace, ResolveRole, RoleCanModerate;
    var change := Do.BlockSpeaking(s, roomId, actor, target, reason, id, now).0;
    var active := ActiveBlocks(Write(s, change).blocks, roomId, target);
    assert id in active;
    forall other | other in active
      ensures other == id
    {
      if ActiveBlocks(s.blocks, roomId, target) == {} {
        assert other !in ActiveBlocks(s.blocks, roomId, target);
      } else {
        assert SameActive(s.blocks[other], s.blocks[id]);
      }
    }
    assert active == {id};
  }

  /** Unblocking lifts it: no block on the user is left in that room, and nobody else's changes. */
  lemma UnblockRestores(s: State, roomId: string, actor: string, target: string, id: string, now: Time)
    requires Keyed(s) && SpeakingSound(s) && Possible(s, UnblockSpeaking(roomId, actor, target, id))
    requires Do.UnblockSpeaking(s, roomId, actor, target, id, now).1.Ok?
    ensures var blocks := Write(s, Do.UnblockSpeaking(s, roomId, actor, target, id, now).0).blocks;
            && ActiveBlocks(blocks, roomId, target) == {}
            && forall room, user :: (room, user) != (roomId, target) ==>
                 ActiveBlocks(blocks, room, user) == ActiveBlocks(s.blocks, room, user)
  {
    hide Text.TrimSpace, ResolveRole, RoleCanModerate;
    var blocks := Write(s, Do.UnblockSpeaking(s, roomId, actor, target, id, now).0).blocks;
    forall other | other in ActiveBlocks(s.blocks, roomId, target)
      ensures other == id
    {
      assert SameActive(s.blocks[other], s.blocks[id]);
    }
    forall room, user | (room, user) != (roomId, target)
      ensures ActiveBlocks(blocks, room, user) == ActiveBlocks(s.blocks, room, user)
    {
      OtherBlocksKept(s.blocks, blocks[id], room, user);
    }
  }

  lemma OtherBlocksKept(blocks: map<string, SpeakingBlock>, block: SpeakingBlock, roomId: string, userId: string)
    requires block.id in blocks && blocks[block.id].roomId == block.roomId && blocks[block.id].userId == block.userId
    requires (roomId, userId) != (block.roomId, block.userId)
    ensures ActiveBlocks(blocks[block.id := block], roomId, userId) == ActiveBlocks(blocks, roomId, userId)
  {
  }

  // ----- Deciding a request -----

  /** Approving makes its user, and nobody else, a speaker of that room; declining changes nobody's role. */
  lemma DecisionSetsRole(s: State, roomId: string, requestId: string, actor: string, reason: string, approve: bool,
                         now: Time, userId: string)
    requires Keyed(s) && Do.DecideRequest(s, roomId, requestId, actor, reason, approve, now).1.Ok?
    ensures var (change, answer) := Do.DecideRequest(s, roomId, requestId, actor, reason, approve, now);
            var s' := Write(s, change); var room := s.rooms[roomId];
            && s'.rooms == s.rooms
            && Do.RoleOf(s', room, userId)
               == if approve && userId == answer.value.userId && ResolveRole(room, userId) == Listener then Speaker
                  else Do.RoleOf(s, room, userId)
  {
    var (change, answer) := Do.DecideRequest(s, roomId, requestId, actor, reason, approve, now);
    var requests := Write(s, change).requests;
    var before := RequestsOf(s.requests, roomId, userId, RequestApproved);
    var after := RequestsOf(requests, roomId, userId, RequestApproved);
    if approve && userId == answer.value.userId {
      assert requestId in after;
    } else {
      assert after == before;
    }
  }

  // ----- Removing, and staying alive -----

  /** Removing ends every active session the user has in the room and touches no other session. */
  lemma RemovalClearsUser(s: State, roomId: string, actor: string, target: string, reason: string, order: seq<string>,
                          now: Time, told: Time)
    requires Keyed(s) && Do.Lists(order, ActiveOf(s.sessions, roomId, target))
    requires Do.RemoveParticipant(s, roomId, actor, target, reason, order, now, told).1.Ok?
    ensures var sessions := Write(s, Do.RemoveParticipant(s, roomId, actor, target, reason, order, now, told).0).sessions;
            && ActiveOf(sessions, roomId, target) == {}
            && sessions.Keys == s.sessions.Keys
            && forall id :: id in s.sessions ==>
                 sessions[id] == if id in ActiveOf(s.sessions, roomId, target)
                                 then Do.RemovedBy(s.sessions[id], actor, reason, now) else s.sessions[id]
  {
    hide Keyed, Do.Lists, Do.RemovedBy, Do.RemoveEach, EndSession, ActiveOf, Do.ModeratedRoom;
    EachRemoved(s, roomId, actor, target, reason, order, now);
    var ended := Do.RemoveEach(s, order, actor, reason, now);
    EndSessionsFrame(s, ended);
    EndSessionsEffect(s, ended);
    RemovalReplaces(s, roomId, actor, target, reason, order, now, EndSessions(s, ended).sessions);
  }

  lemma EachRemoved(s: State, roomId: string, actor: string, target: string, reason: string, order: seq<string>, now: Time)
    requires Keyed(s) && Do.Lists(order, ActiveOf(s.sessions, roomId, target))
    ensures forall i :: 0 <= i < |order| ==> order[i] in s.sessions
    ensures var ended := Do.RemoveEach(s, order, actor, reason, now);
            && (forall i :: 0 <= i < |ended| ==> ended[i].id in s.sessions)
            && (forall i, j :: 0 <= i < j < |ended| ==> ended[i].id != ended[j].id)
  {
  }

  lemma RemovalReplaces(s: State, roomId: string, actor: string, target: string, reason: string, order: seq<string>,
                        now: Time, after: map<string, ListenerSession>)
    requires Keyed(s) && Do.Lists(order, ActiveOf(s.sessions, roomId, target))
    requires Replaces(s.sessions, Do.RemoveEach(s, order, actor, reason, now), after)
    ensures ActiveOf(after, roomId, target) == {} && after.Keys == s.sessions.Keys
    ensures forall id :: id in s.sessions ==>
              after[id] == if id in ActiveOf(s.sessions, roomId, target)
                           then Do.RemovedBy(s.sessions[id], actor, reason, now) else s.sessions[id]
  {
    var ended := Do.RemoveEach(s, order, actor, reason, now);
    forall id | id in s.sessions
      ensures after[id] == if id in ActiveOf(s.sessions, roomId, target)
                           then Do.RemovedBy(s.sessions[id], actor, reason, now) else s.sessions[id]
    {
      if id in order {
        var i :| 0 <= i < |order| && order[i] == id;
        assert after[ended[i].id] == ended[i];
      } else {
        assert forall i :: 0 <= i < |ended| ==> ended[i].id == order[i];
      }
    }
  }

  /** After a heartbeat at `now` no cutoff up to `now` finds that session stale, and no other session's staleness moves. */
  lemma HeartbeatKeepsAlive(s: State, roomId: string, sessionId: string, userId: string, now: Time, cutoff: Time)
    requires Keyed(s) && Do.Heartbeat(s, roomId, sessionId, userId, now).1.Ok? && cutoff <= now
    ensures Stale(Write(s, Do.Heartbeat(s, roomId, sessionId, userId, now).0).sessions, cutoff)
         == Stale(s.sessions, cutoff) - {sessionId}
  {
  }

  /**
   Leaving is the user's own: it needs the session's room and user, and writes that one session. It asks for nothing
   else, so a session that was removed or expired becomes one that left, at a new instant.
   */
  lemma LeavingOverwrites(s: State, roomId: string, sessionId: string, userId: string, leaveType: string, now: Time)
    requires Keyed(s)
    ensures var (change, answer) := Do.LeaveListener(s, roomId, sessionId, userId, leaveType, now);
            if sessionId in s.sessions && s.sessions[sessionId].roomId == roomId && s.sessions[sessionId].userId == userId
            then
              && answer.Ok? && answer.value.status == SessionLeft && answer.value.leftAt == Some(now)
              && Write(s, change).sessions == s.sessions[sessionId := answer.value]
            else answer.Err? && change == Nothing
  {
    hide Text.TrimSpace, ListenerAbsent;
    if Do.OwnSession(s, roomId, sessionId, userId).Ok? {
      var ended := Do.LeaveListener(s, roomId, sessionId, userId, leaveType, now).0.ended;
      assert ended[..0] == [];
      assert EndSessions(s, []) == s;
    }
  }

  // ----- Recording -----

  /**
   A recording started and then stopped: it is completed with its duration in whole seconds, and the room is as
   before but for its time of update.
   */
  lemma RecordingRoundTrip(cfg: ServiceConfig, s: State, roomId: string, actor: string, id: string, started: Time,
                           stopped: Time)
    requires Keyed(s) && NewId(s, id) && started <= stopped
    requires Do.StartRecording(cfg, s, roomId, actor, id, started).1.Ok? && s.rooms[roomId].activeRecordingId == ""
    ensures var recorded := Write(s, Do.StartRecording(cfg, s, roomId, actor, id, started).0);
            var (change, answer) := Do.StopRecording(cfg, recorded, roomId, id, actor, stopped);
            && recorded.rooms[roomId].activeRecordingId == id
            && answer.Ok? && answer.value.status == RecordingCompleted
            && answer.value.endedAt == Some(stopped) && answer.value.durationSeconds == (stopped - started) / SECOND
            && (cfg.recordingRetentionDays > 0 ==>
                  answer.value.expiresAt == Some(stopped + cfg.recordingRetentionDays * Do.DAY))
            && Write(recorded, change).rooms == s.rooms[roomId := s.rooms[roomId].(updatedAt := stopped)]
  {
    hide Do.StorageFor, ResolveRole, RoleCanModerate, Text.TrimSlashes, Unused;
    RolesIgnoreRecording(s.rooms[roomId], id, started, actor);
  }

  /** Stopping clears the room's active recording even when that is another one than the one stopped. */
  lemma StoppingClearsWhicheverIsActive(cfg: ServiceConfig, s: State, roomId: string, id: string, actor: string, now: Time)
    requires Keyed(s) && Do.StopRecording(cfg, s, roomId, id, actor, now).1.Ok?
    ensures var s' := Write(s, Do.StopRecording(cfg, s, roomId, id, actor, now).0);
            && s'.rooms == s.rooms[roomId := s.rooms[roomId].(activeRecordingId := "", updatedAt := now)]
            && s'.recordings.Keys == s.recordings.Keys
            && forall other :: other in s.recordings && other != id ==> s'.recordings[other] == s.recordings[other]
  {
    hide ResolveRole, RoleCanModerate;
  }

  lemma RolesIgnoreRecording(room: Room, id: string, now: Time, userId: string)
    ensures ResolveRole(room.(activeRecordingId := id, updatedAt := now), userId) == ResolveRole(room, userId)
  {
  }

  // ----- Who may moderate a new room -----

  predicate TrimsTo(values: seq<string>, v: string) {
    exists i :: 0 <= i < |values| && Text.TrimSpace(values[i]) == v
  }

  lemma TrimsToOneMore(earlier: seq<string>, last: string, v: string)
    ensures TrimsTo(earlier + [last], v) <==> TrimsTo(earlier, v) || Text.TrimSpace(last) == v
  {
    var values := earlier + [last];
    assert values[|earlier|] == last;
    if i :| 0 <= i < |earlier| && Text.TrimSpace(earlier[i]) == v {
      assert values[i] == earlier[i];
    }
  }

  /** The result holds each trimmed non-blank value once. */
  lemma {:induction false} UniqueStringsAreUnique(values: seq<string>)
    ensures var out := Do.UniqueStrings(values);
            && (forall i, j :: 0 <= i < j < |out| ==> out[i] != out[j])
            && (forall v :: v in out <==> v != "" && TrimsTo(values, v))
  {
    if values != [] {
      hide Text.TrimSpace, TrimsTo;
      var n := |values| - 1;
      UniqueStringsAreUnique(values[..n]);
      assert values == values[..n] + [values[n]];
      forall v
        ensures v in Do.UniqueStrings(values) <==> v != "" && TrimsTo(values, v)
      {
        TrimsToOneMore(values[..n], values[n], v);
      }
    }
  }

  /** Values keep the order of first appearance: more of them only add to the end. */
  lemma {:induction false} UniqueStringsInOrder(values: seq<string>, k: nat)
    requires k <= |values|
    ensures Do.UniqueStrings(values[..k]) <= Do.UniqueStrings(values)
  {
    if k < |values| {
      UniqueStringsInOrder(values[..|values| - 1], k);
      assert values[..|values| - 1][..k] == values[..k];
    } else {
      assert values[..k] == values;
    }
  }

  /** A new room is moderated by its owner as given and by whoever its lists name once trimmed, and by nobody else. */
  lemma WhoModeratesNewRoom(cfg: ServiceConfig, s: State, title: string, ownerId: string, adminIds: seq<string>,
                            moderatorIds: seq<string>, roomId: string, streamId: string, mode: string, now: Time,
                            userId: string)
    requires Do.CreateRoom(cfg, title, ownerId, adminIds, moderatorIds, roomId, streamId, mode, now).1.Ok?
    ensures var change := Do.CreateRoom(cfg, title, ownerId, adminIds, moderatorIds, roomId, streamId, mode, now).0;
            (CanModerate(Write(s, change), roomId, userId)
             <==> userId != "" && (userId == ownerId || TrimsTo(adminIds, userId) || TrimsTo(moderatorIds, userId)))
  {
    hide Text.TrimSpace, TrimsTo, Do.UniqueStrings;
    UniqueStringsAreUnique(adminIds);
    UniqueStringsAreUnique(moderatorIds);
  }
}
