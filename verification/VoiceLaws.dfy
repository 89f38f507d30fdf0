/** What every reachable state of the voice service keeps: room stages, sessions, requests and blocks. */
module VoiceLaws {
  import opened Base
  import opened VoiceTypes
  import opened VoiceState
  import opened VoiceRuns

  // ----- Ending several sessions at once -----

  /** The ended sessions replace their records; nothing else about sessions changes. */
  predicate Replaces(before: map<string, ListenerSession>, ended: seq<ListenerSession>, after: map<string, ListenerSession>) {
    && after.Keys == before.Keys
    && (forall i :: 0 <= i < |ended| ==> ended[i].id in after && after[ended[i].id] == ended[i])
    && (forall id :: id in before && (forall i :: 0 <= i < |ended| ==> ended[i].id != id) ==> after[id] == before[id])
  }

  lemma {:induction false} EndSessionsFrame(s: State, ended: seq<ListenerSession>)
    ensures EndSessions(s, ended) == s.(sessions := EndSessions(s, ended).sessions, presence := EndSessions(s, ended).presence)
  {
    if ended != [] {
      hide ListenerAbsent;
      EndSessionsFrame(s, ended[..|ended| - 1]);
    }
  }

  lemma {:induction false} EndSessionsEffect(s: State, ended: seq<ListenerSession>)
    requires forall i :: 0 <= i < |ended| ==> ended[i].id in s.sessions
    requires forall i, j :: 0 <= i < j < |ended| ==> ended[i].id != ended[j].id
    ensures Replaces(s.sessions, ended, EndSessions(s, ended).sessions)
  {
    if ended != [] {
      hide ListenerAbsent;
      var earlier := ended[..|ended| - 1];
      EndSessionsEffect(s, earlier);
      ReplacesOneMore(s.sessions, earlier, EndSessions(s, earlier).sessions, ended[|ended| - 1]);
      assert ended == earlier + [ended[|ended| - 1]];
    }
  }

  lemma ReplacesOneMore(before: map<string, ListenerSession>, ended: seq<ListenerSession>,
                        after: map<string, ListenerSession>, last: ListenerSession)
    requires Replaces(before, ended, after) && last.id in before
    requires forall i :: 0 <= i < |ended| ==> ended[i].id != last.id
    ensures Replaces(before, ended + [last], after[last.id := last])
  {
    var longer := ended + [last];
    forall id | id in before && forall i :: 0 <= i < |longer| ==> longer[i].id != id
      ensures after[last.id := last][id] == before[id]
    {
      assert longer[|ended|].id != id;
      assert forall i :: 0 <= i < |ended| ==> ended[i] == longer[i];
    }
  }

  lemma StaleAreStored(sessions: map<string, ListenerSession>, cutoff: Time)
    ensures Stale(sessions, cutoff) <= sessions.Keys
  {
  }

  // ----- Records are filed under their ids -----

  lemma KeyedStep(s: State, change: Change, now: Time)
    requires Keyed(s) && Legal(s, change, now)
    ensures Keyed(Write(s, change))
  {
    if change.EndListeners? {
      hide Keyed, EndSession;
      EndSessionsFrame(s, change.ended);
      EndSessionsEffect(s, change.ended);
      KeyedAfterEnds(s, change.ended, change.told);
    } else {
      KeyedAfterPut(s, change);
    }
  }

  lemma KeyedAfterPut(s: State, change: Change)
    requires Keyed(s) && !change.EndListeners?
    ensures Keyed(Write(s, change))
  {
    hide ListenerPresent, ParticipantPresent;
  }

  lemma KeyedAfterEnds(s: State, ended: seq<ListenerSession>, told: seq<Event>)
    requires Keyed(s) && Replaces(s.sessions, ended, EndSessions(s, ended).sessions)
    ensures Keyed(Write(s, EndListeners(ended, told)))
  {
    EndSessionsFrame(s, ended);
    hide EndSessions;
    var after := EndSessions(s, ended).sessions;
    forall id | id in after
      ensures after[id].id == id
    {
      if i :| 0 <= i < |ended| && ended[i].id == id {
        assert after[ended[i].id] == ended[i];
      }
    }
  }

  lemma {:induction false} AlwaysKeyed(cfg: ServiceConfig, ss: seq<State>, cmds: seq<Command>, times: seq<Time>, i: nat)
    requires Run(cfg, ss, cmds, times) && i < |ss|
    ensures Keyed(ss[i])
  {
    hide Run, Keyed, Legal, Decide, Write, Empty;
    RunShape(cfg, ss, cmds, times);
    if i == 0 {
      EmptyIsKeyed(ss[0]);
    } else {
      AlwaysKeyed(cfg, ss, cmds, times, i - 1);
      StepOf(cfg, ss, cmds, times, i - 1);
      KeyedStep(ss[i - 1], Decide(cfg, ss[i - 1], cmds[i - 1], times[i - 1]), times[i - 1]);
    }
  }

  lemma EmptyIsKeyed(s: State)
    requires Empty(s)
    ensures Keyed(s)
  {
  }

  lemma RunShape(cfg: ServiceConfig, ss: seq<State>, cmds: seq<Command>, times: seq<Time>)
    requires Run(cfg, ss, cmds, times)
    ensures |ss| == |cmds| + 1 && |times| == |cmds| && Empty(ss[0])
  {
    hide Empty, Possible, Apply;
  }

  lemma StepOf(cfg: ServiceConfig, ss: seq<State>, cmds: seq<Command>, times: seq<Time>, i: nat)
    requires Run(cfg, ss, cmds, times) && i < |cmds| && Keyed(ss[i])
    ensures |ss| == |cmds| + 1 && |times| == |cmds| && Possible(ss[i], cmds[i])
    ensures ss[i + 1] == Write(ss[i], Decide(cfg, ss[i], cmds[i], times[i]))
    ensures Legal(ss[i], Decide(cfg, ss[i], cmds[i], times[i]), times[i])
  {
    hide Decide, Possible, Legal, Keyed, Write;
    DecisionsAreLegal(cfg, ss[i], cmds[i], times[i]);
  }

  // ----- Room stages -----

  /** Only three stages occur; the instants of entering them are set exactly from that stage on. */
  predicate Staged(room: Room) {
    && room.status in {Draft, Live, Finished}
    && (room.startedAt.Some? <==> room.status != Draft)
    && (room.endedAt.Some? <==> room.status == Finished)
    && ':' !in room.id
  }

  predicate RoomsStaged(s: State) {
    forall id :: id in s.rooms ==> Staged(s.rooms[id])
  }

  function StageNumber(status: RoomStatus): nat {
    match status
    case Draft => 0
    case Live => 1
    case _ => 2
  }

  /** `later` is `earlier` as any number of commands may leave it. */
  predicate Successor(earlier: Room, later: Room) {
    && later.id == earlier.id
    && later.ownerId == earlier.ownerId
    && later.adminIds == earlier.adminIds
    && later.moderatorIds == earlier.moderatorIds
    && StageNumber(earlier.status) <= StageNumber(later.status)
    && (earlier.startedAt.Some? ==> later.startedAt == earlier.startedAt)
    && (earlier.endedAt.Some? ==> later.endedAt == earlier.endedAt)
  }

  predicate RoomsSucceed(before: map<string, Room>, after: map<string, Room>) {
    forall id :: id in before ==> id in after && Successor(before[id], after[id])
  }

  /** One command moves a room by at most one stage, and stamps the stage it enters with its own instant. */
  predicate OneStage(before: map<string, Room>, after: map<string, Room>, now: Time) {
    && (forall id :: id in after && id !in before ==> after[id].status == Draft)
    && (forall id :: id in before && id in after && before[id].status != after[id].status ==>
          || (before[id].status == Draft && after[id].status == Live && after[id].startedAt == Some(now))
          || (before[id].status == Live && after[id].status == Finished && after[id].endedAt == Some(now)))
  }

  lemma RoomsStep(s: State, change: Change, now: Time)
    requires Keyed(s) && RoomsStaged(s) && Legal(s, change, now)
    ensures RoomsStaged(Write(s, change))
    ensures RoomsSucceed(s.rooms, Write(s, change).rooms)
    ensures OneStage(s.rooms, Write(s, change).rooms, now)
  {
    hide LegalSpeaker, LegalListener, LegalRequest, LegalBlock, LegalReport, Keyed;
    match change
    case PutRoom(room, e, jobs) => RoomStep(s, room, e, jobs, now);
    case PutRecording(recording, room, e) => RecordedRoomStep(s, recording, room, e, now);
    case EndListeners(ended, told) => EndSessionsFrame(s, ended);
    case _ =>
  }

  lemma RoomStep(s: State, room: Room, e: Event, jobs: seq<JobRequest>, now: Time)
    requires RoomsStaged(s) && LegalRoom(s, room, e, jobs, now)
    ensures RoomsStaged(Write(s, PutRoom(room, e, jobs)))
    ensures RoomsSucceed(s.rooms, s.rooms[room.id := room]) && OneStage(s.rooms, s.rooms[room.id := room], now)
  {
  }

  lemma RecordedRoomStep(s: State, recording: Recording, room: Room, e: Event, now: Time)
    requires RoomsStaged(s) && LegalRecording(s, recording, room, e, now)
    ensures RoomsStaged(Write(s, PutRecording(recording, room, e)))
    ensures RoomsSucceed(s.rooms, s.rooms[room.id := room]) && OneStage(s.rooms, s.rooms[room.id := room], now)
  {
  }

  // ----- Sessions, requests and blocks -----

  /** A session is active exactly while it has no leaving time, and its room exists. */
  predicate SessionsSound(s: State) {
    && (forall id :: id in s.sessions ==>
          && (s.sessions[id].status == SessionActive <==> s.sessions[id].leftAt.None?)
          && s.sessions[id].roomId in s.rooms)
    && (forall id :: id in s.participants ==>
          s.participants[id].status == ParticipantActive && s.participants[id].roomId in s.rooms)
  }

  lemma SessionsStep(s: State, change: Change, now: Time)
    requires Keyed(s) && SessionsSound(s) && Legal(s, change, now)
    ensures SessionsSound(Write(s, change))
  {
    hide LegalRequest, LegalBlock, LegalReport, LegalRoom, Keyed;
    match change
    case PutRecording(recording, room, e) => hide LegalRecording;
    case EndListeners(ended, told) => SessionsAfterEnds(s, ended, told, now);
    case _ =>
  }

  lemma SessionsAfterEnds(s: State, ended: seq<ListenerSession>, told: seq<Event>, now: Time)
    requires SessionsSound(s) && LegalEnds(s, ended, told, now)
    ensures SessionsSound(Write(s, EndListeners(ended, told)))
  {
    EndSessionsFrame(s, ended);
    EndSessionsEffect(s, ended);
    var after := EndSessions(s, ended).sessions;
    forall id | id in after
      ensures after[id].status == SessionActive <==> after[id].leftAt.None?
      ensures after[id].roomId in s.rooms
    {
      if i :| 0 <= i < |ended| && ended[i].id == id {
        assert after[ended[i].id] == ended[i] && EndOf(s.sessions[ended[i].id], ended[i], now);
      }
    }
  }

  /** At most one pending request and one active block for each room and user; only pending requests are undecided. */
  predicate SpeakingSound(s: State) {
    && (forall id, other :: id in s.requests && other in s.requests && SamePending(s.requests[id], s.requests[other]) ==>
          id == other)
    && (forall id, other :: id in s.blocks && other in s.blocks && SameActive(s.blocks[id], s.blocks[other]) ==>
          id == other)
    && (forall id :: id in s.requests ==> (s.requests[id].status == RequestPending <==> s.requests[id].decidedAt.None?))
  }

  predicate SamePending(a: SpeakerRequest, b: SpeakerRequest) {
    && a.status == RequestPending && b.status == RequestPending && a.roomId == b.roomId && a.userId == b.userId
  }

  predicate SameActive(a: SpeakingBlock, b: SpeakingBlock) {
    && a.unblockedAt.None? && b.unblockedAt.None? && a.roomId == b.roomId && a.userId == b.userId
  }

  lemma SpeakingStep(s: State, change: Change, now: Time)
    requires SpeakingSound(s) && Legal(s, change, now)
    ensures SpeakingSound(Write(s, change))
  {
    hide LegalRoom, LegalRecording, LegalSpeaker, LegalListener, LegalReport;
    match change
    case PutRequest(request, e) => RequestStep(s, request, e, now);
    case PutBlock(block, e) => BlockStep(s, block, e, now);
    case EndListeners(ended, told) => EndSessionsFrame(s, ended);
    case _ =>
  }

  lemma RequestStep(s: State, request: SpeakerRequest, e: Event, now: Time)
    requires SpeakingSound(s) && LegalRequest(s, request, e, now)
    ensures SpeakingSound(Write(s, PutRequest(request, e)))
  {
    forall id | id in s.requests && id != request.id && SamePending(s.requests[id], request)
      ensures id in RequestsOf(s.requests, request.roomId, request.userId, RequestPending)
    {
    }
  }

  lemma BlockStep(s: State, block: SpeakingBlock, e: Event, now: Time)
    requires SpeakingSound(s) && LegalBlock(s, block, e, now)
    ensures SpeakingSound(Write(s, PutBlock(block, e)))
  {
    forall id | id in s.blocks && id != block.id && SameActive(s.blocks[id], block)
      ensures id in ActiveBlocks(s.blocks, block.roomId, block.userId)
    {
    }
  }
}
