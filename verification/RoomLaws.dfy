/** Rooms, sessions and speaking over whole runs. */
module RoomLaws {
  import opened Base
  import opened VoiceTypes
  import opened VoiceState
  import opened VoiceRuns
  import opened VoiceLaws

  ghost predicate Sound(s: State) {
    Keyed(s) && RoomsStaged(s) && SessionsSound(s) && SpeakingSound(s)
  }

  lemma {:induction false} AlwaysSound(cfg: ServiceConfig, ss: seq<State>, cmds: seq<Command>, times: seq<Time>, i: nat)
    requires Run(cfg, ss, cmds, times) && i < |ss|
    ensures Sound(ss[i])
  {
    hide Run, Sound, RoomsSucceed, OneStage, Empty;
    RunShape(cfg, ss, cmds, times);
    if i == 0 {
      EmptyIsSound(ss[0]);
    } else {
      AlwaysSound(cfg, ss, cmds, times, i - 1);
      SoundStep(cfg, ss, cmds, times, i - 1);
    }
  }

  lemma EmptyIsSound(s: State)
    requires Empty(s)
    ensures Sound(s)
  {
  }

  lemma SoundStep(cfg: ServiceConfig, ss: seq<State>, cmds: seq<Command>, times: seq<Time>, i: nat)
    requires Run(cfg, ss, cmds, times) && i < |cmds| && |ss| == |cmds| + 1 && |times| == |cmds| && Sound(ss[i])
    ensures Sound(ss[i + 1])
    ensures RoomsSucceed(ss[i].rooms, ss[i + 1].rooms) && OneStage(ss[i].rooms, ss[i + 1].rooms, times[i])
  {
    hide Keyed, RoomsStaged, SessionsSound, SpeakingSound, Legal, Write, Decide, RoomsSucceed, OneStage;
    StepOf(cfg, ss, cmds, times, i);
    SoundWrite(ss[i], Decide(cfg, ss[i], cmds[i], times[i]), times[i]);
  }

  lemma SoundWrite(s: State, change: Change, now: Time)
    requires Sound(s) && Legal(s, change, now)
    ensures Sound(Write(s, change))
    ensures RoomsSucceed(s.rooms, Write(s, change).rooms) && OneStage(s.rooms, Write(s, change).rooms, now)
  {
    hide Keyed, RoomsStaged, SessionsSound, SpeakingSound, Legal, Write, RoomsSucceed, OneStage;
    KeyedStep(s, change, now);
    RoomsStep(s, change, now);
    SessionsStep(s, change, now);
    SpeakingStep(s, change, now);
  }

  // ----- Room lifecycle -----

  /**
   Between any two moments a room keeps its owner and role lists, never steps back a stage, and keeps the instants
   of the stages already entered; at every moment it is a draft, live or finished with exactly those instants set.
   */
  lemma {:induction false} RoomLifecycle(cfg: ServiceConfig, ss: seq<State>, cmds: seq<Command>, times: seq<Time>,
                                         i: nat, j: nat, roomId: string)
    requires Run(cfg, ss, cmds, times) && i <= j < |ss| && roomId in ss[i].rooms
    ensures roomId in ss[j].rooms && Successor(ss[i].rooms[roomId], ss[j].rooms[roomId]) && Staged(ss[j].rooms[roomId])
    decreases j
  {
    hide Sound, OneStage, RoomsSucceed, Staged, Successor, Apply, Possible, Empty;
    AlwaysSound(cfg, ss, cmds, times, j);
    if i < j {
      RoomLifecycle(cfg, ss, cmds, times, i, j - 1, roomId);
      AlwaysSound(cfg, ss, cmds, times, j - 1);
      SoundStep(cfg, ss, cmds, times, j - 1);
      SucceedsAt(ss[j - 1].rooms, ss[j].rooms, roomId);
      Succession(ss[i].rooms[roomId], ss[j - 1].rooms[roomId], ss[j].rooms[roomId]);
    } else {
      Unchanged(ss[i].rooms[roomId]);
    }
    StagedAt(ss[j], roomId);
  }

  lemma Succession(a: Room, b: Room, c: Room)
    requires Successor(a, b) && Successor(b, c)
    ensures Successor(a, c)
  {
  }

  lemma Unchanged(room: Room)
    ensures Successor(room, room)
  {
  }

  lemma SucceedsAt(before: map<string, Room>, after: map<string, Room>, roomId: string)
    requires RoomsSucceed(before, after) && roomId in before
    ensures roomId in after && Successor(before[roomId], after[roomId])
  {
  }

  lemma StagedAt(s: State, roomId: string)
    requires Sound(s) && roomId in s.rooms
    ensures Staged(s.rooms[roomId])
  {
  }

  /** Each command moves a room by one stage at most, so its statuses read Draft, Live, Finished in order. */
  lemma RoomMovesOneStageAtATime(cfg: ServiceConfig, ss: seq<State>, cmds: seq<Command>, times: seq<Time>, i: nat)
    requires Run(cfg, ss, cmds, times) && i < |cmds| && |ss| == |cmds| + 1 && |times| == |cmds|
    ensures OneStage(ss[i].rooms, ss[i + 1].rooms, times[i])
  {
    hide Keyed, RoomsStaged, SessionsSound, SpeakingSound, OneStage;
    AlwaysSound(cfg, ss, cmds, times, i);
    SoundStep(cfg, ss, cmds, times, i);
  }

  /** Whoever may moderate a room once may moderate it ever after. */
  lemma AuthorityLasts(cfg: ServiceConfig, ss: seq<State>, cmds: seq<Command>, times: seq<Time>, i: nat, j: nat,
                       roomId: string, userId: string)
    requires Run(cfg, ss, cmds, times) && i <= j < |ss|
    requires CanModerate(ss[i], roomId, userId)
    ensures CanModerate(ss[j], roomId, userId)
  {
    RoomLifecycle(cfg, ss, cmds, times, i, j, roomId);
  }

  // ----- Sessions -----

  lemma EndedStaysEnded(s: State, change: Change, now: Time, id: string)
    requires Legal(s, change, now) && id in s.sessions && s.sessions[id].status != SessionActive
    ensures id in Write(s, change).sessions && Write(s, change).sessions[id].status != SessionActive
  {
    hide LegalRoom, LegalRecording, LegalSpeaker, LegalRequest, LegalBlock, LegalReport;
    if change.EndListeners? {
      var ended := change.ended;
      EndSessionsFrame(s, ended);
      EndSessionsEffect(s, ended);
      var after := EndSessions(s, ended).sessions;
      if i :| 0 <= i < |ended| && ended[i].id == id {
        assert after[ended[i].id] == ended[i];
      }
    }
  }

  /** A session that is no longer active never becomes active again, even if leaving overwrites it. */
  lemma {:induction false} EndedForever(cfg: ServiceConfig, ss: seq<State>, cmds: seq<Command>, times: seq<Time>,
                                        i: nat, j: nat, id: string)
    requires Run(cfg, ss, cmds, times) && i <= j < |ss|
    requires id in ss[i].sessions && ss[i].sessions[id].status != SessionActive
    ensures id in ss[j].sessions && ss[j].sessions[id].status != SessionActive && ss[j].sessions[id].leftAt.Some?
    decreases j
  {
    hide Legal, Write, Decide, Keyed, Sound;
    AlwaysSound(cfg, ss, cmds, times, j);
    if i < j {
      EndedForever(cfg, ss, cmds, times, i, j - 1, id);
      AlwaysKeyed(cfg, ss, cmds, times, j - 1);
      StepOf(cfg, ss, cmds, times, j - 1);
      EndedStaysEnded(ss[j - 1], Decide(cfg, ss[j - 1], cmds[j - 1], times[j - 1]), times[j - 1], id);
    }
    EndedHasLeft(ss[j], id);
  }

  lemma EndedHasLeft(s: State, id: string)
    requires Sound(s) && id in s.sessions
    ensures s.sessions[id].status == SessionActive <==> s.sessions[id].leftAt.None?
  {
    hide Keyed, RoomsStaged, SpeakingSound;
  }

  // ----- Speaking -----

  lemma OneRequestOneBlock(cfg: ServiceConfig, ss: seq<State>, cmds: seq<Command>, times: seq<Time>, i: nat,
                           roomId: string, userId: string)
    requires Run(cfg, ss, cmds, times) && i < |ss|
    ensures |RequestsOf(ss[i].requests, roomId, userId, RequestPending)| <= 1
    ensures |ActiveBlocks(ss[i].blocks, roomId, userId)| <= 1
  {
    hide Keyed, RoomsStaged, SessionsSound;
    AlwaysSound(cfg, ss, cmds, times, i);
    AtMostOne(RequestsOf(ss[i].requests, roomId, userId, RequestPending));
    AtMostOne(ActiveBlocks(ss[i].blocks, roomId, userId));
  }

  lemma AtMostOne(ids: set<string>)
    requires forall a, b :: a in ids && b in ids ==> a == b
    ensures |ids| <= 1
  {
    if id :| id in ids {
      assert ids == {id};
    }
  }

  lemma DecidedStep(s: State, change: Change, now: Time, id: string)
    requires Legal(s, change, now) && id in s.requests && s.requests[id].status != RequestPending
    ensures id in Write(s, change).requests && Write(s, change).requests[id] == s.requests[id]
  {
    hide LegalRoom, LegalRecording, LegalSpeaker, LegalListener, LegalBlock, LegalReport;
    if change.EndListeners? {
      EndSessionsFrame(s, change.ended);
    }
  }

  /** A decided request never changes again. */
  lemma {:induction false} DecidedForever(cfg: ServiceConfig, ss: seq<State>, cmds: seq<Command>, times: seq<Time>,
                                          i: nat, j: nat, id: string)
    requires Run(cfg, ss, cmds, times) && i <= j < |ss|
    requires id in ss[i].requests && ss[i].requests[id].status != RequestPending
    ensures id in ss[j].requests && ss[j].requests[id] == ss[i].requests[id]
    decreases j
  {
    hide Run, Legal, Write, Decide, Keyed;
    RunShape(cfg, ss, cmds, times);
    if i < j {
      DecidedForever(cfg, ss, cmds, times, i, j - 1, id);
      AlwaysKeyed(cfg, ss, cmds, times, j - 1);
      StepOf(cfg, ss, cmds, times, j - 1);
      DecidedStep(ss[j - 1], Decide(cfg, ss[j - 1], cmds[j - 1], times[j - 1]), times[j - 1], id);
    }
  }

  lemma NewRequestIsUnblocked(s: State, change: Change, now: Time, id: string)
    requires Legal(s, change, now) && id in Write(s, change).requests && id !in s.requests
    ensures ActiveBlocks(s.blocks, Write(s, change).requests[id].roomId, Write(s, change).requests[id].userId) == {}
  {
    hide LegalRoom, LegalRecording, LegalSpeaker, LegalListener, LegalBlock, LegalReport;
    if change.EndListeners? {
      EndSessionsFrame(s, change.ended);
    }
  }

  /** While a user is blocked in a room no new request of theirs appears there. */
  lemma NoRequestWhileBlocked(cfg: ServiceConfig, ss: seq<State>, cmds: seq<Command>, times: seq<Time>, i: nat, id: string)
    requires Run(cfg, ss, cmds, times) && i < |cmds| && |ss| == |cmds| + 1
    requires id in ss[i + 1].requests && id !in ss[i].requests
    ensures var request := ss[i + 1].requests[id];
            ActiveBlocks(ss[i].blocks, request.roomId, request.userId) == {}
  {
    hide Decide, Keyed, Legal, Write;
    AlwaysKeyed(cfg, ss, cmds, times, i);
    StepOf(cfg, ss, cmds, times, i);
    NewRequestIsUnblocked(ss[i], Decide(cfg, ss[i], cmds[i], times[i]), times[i], id);
  }
}
