/** The event log is a third record of the same facts: folding it rebuilds the stored tables. */
module EventReplay {
  import opened Base
  import opened VoiceTypes
  import opened VoiceState
  import opened VoiceRuns
  import opened VoiceLaws
  import Do = VoiceCommands

  datatype Tables = Tables(
    rooms: map<string, Room>,
    requests: map<string, SpeakerRequest>,
    blocks: map<string, SpeakingBlock>,
    recordings: map<string, Recording>,
    reports: map<string, Report>
  )

  function TablesOf(s: State): Tables {
    Tables(s.rooms, s.requests, s.blocks, s.recordings, s.reports)
  }

  /** What a reader of the log learns from one event. Recording events also move the room's active recording. */
  function Learn(t: Tables, e: Event): Tables {
    match e.payload
    case OfRoom(room) => t.(rooms := t.rooms[room.id := room])
    case OfRequest(request) => t.(requests := t.requests[request.id := request])
    case OfBlock(block) => t.(blocks := t.blocks[block.id := block])
    case OfReport(report) => t.(reports := t.reports[report.roomId := report])
    case OfRecording(recording) =>
      var active := if e.eventType == RecordingStartedEvent then recording.id else "";
      var rooms :=
        if e.roomId in t.rooms then
          t.rooms[e.roomId := t.rooms[e.roomId].(activeRecordingId := active, updatedAt := recording.updatedAt)]
        else t.rooms;
      t.(rooms := rooms, recordings := t.recordings[recording.id := recording])
    case OfSession(_) => t
    case OfTarget(_, _) => t
  }

  function Replay(events: seq<Event>): Tables {
    if events == [] then Tables(map[], map[], map[], map[], map[])
    else Learn(Replay(events[..|events| - 1]), events[|events| - 1])
  }

  lemma ReplayOneMore(events: seq<Event>, e: Event)
    ensures Replay(events + [e]) == Learn(Replay(events), e)
  {
  }

  lemma {:induction false} ReplaySilent(events: seq<Event>, told: seq<Event>)
    requires forall i :: 0 <= i < |told| ==> told[i].payload.OfSession? || told[i].payload.OfTarget?
    ensures Replay(events + told) == Replay(events)
  {
    if told == [] {
      assert events + told == events;
    } else {
      var n := |told| - 1;
      ReplaySilent(events, told[..n]);
      assert events + told == (events + told[..n]) + [told[n]];
      ReplayOneMore(events + told[..n], told[n]);
    }
  }

  /** An event that reports a write carries the very record written. */
  predicate Carries(change: Change) {
    match change
    case PutRoom(room, e, _) => e.payload == OfRoom(room)
    case PutListener(session, e) => e.payload == OfSession(session)
    case EndListeners(_, told) => forall i :: 0 <= i < |told| ==> told[i].payload.OfSession? || told[i].payload.OfTarget?
    case PutRequest(request, e) => e.payload == OfRequest(request)
    case PutBlock(block, e) => e.payload == OfBlock(block)
    case PutReport(report, e) => e.payload == OfReport(report)
    case Tell(e) => e.payload.OfTarget?
    case _ => true
  }

  lemma EventsCarryRecords(s: State, change: Change, now: Time)
    requires Legal(s, change, now)
    ensures Carries(change)
  {
    hide LegalSpeaker, LegalRecording, StatsOf;
  }

  lemma ReplayStep(s: State, change: Change, now: Time)
    requires Keyed(s) && Legal(s, change, now) && Replay(s.events) == TablesOf(s)
    ensures Replay(Write(s, change).events) == TablesOf(Write(s, change))
  {
    hide Replay, LegalRoom, LegalListener, LegalEnds, LegalRequest, LegalBlock, LegalReport, LegalSpeaker, LegalRecording;
    hide ListenerPresent, ParticipantPresent, Keyed;
    EventsCarryRecords(s, change, now);
    match change
    case EndListeners(ended, told) =>
      EndSessionsFrame(s, ended);
      ReplaySilent(s.events, told);
    case PutRecording(recording, room, e) => RecordingReplayed(s, recording, room, e, now);
    case PutRoom(_, e, _) => ReplayOneMore(s.events, e);
    case PutListener(_, e) => ReplayOneMore(s.events, e);
    case PutRequest(_, e) => ReplayOneMore(s.events, e);
    case PutBlock(_, e) => ReplayOneMore(s.events, e);
    case PutReport(_, e) => ReplayOneMore(s.events, e);
    case Tell(e) => ReplayOneMore(s.events, e);
    case _ =>
  }

  lemma RecordingReplayed(s: State, recording: Recording, room: Room, e: Event, now: Time)
    requires Keyed(s) && LegalRecording(s, recording, room, e, now) && Replay(s.events) == TablesOf(s)
    ensures Replay(s.events + [e]) == TablesOf(Write(s, PutRecording(recording, room, e)))
  {
    hide Replay;
    ReplayOneMore(s.events, e);
  }

  lemma NothingToReplay(s: State)
    requires Empty(s)
    ensures Replay(s.events) == TablesOf(s)
  {
  }

  /**
   Folding the log of any reachable state from nothing rebuilds its rooms, with their active recordings, its
   speaker requests, speaking blocks, recordings and latest reports exactly.
   */
  lemma {:induction false} LogRebuildsTables(cfg: ServiceConfig, ss: seq<State>, cmds: seq<Command>, times: seq<Time>,
                                             i: nat)
    requires Run(cfg, ss, cmds, times) && i < |ss|
    ensures Replay(ss[i].events) == TablesOf(ss[i])
  {
    hide Run, Legal, Keyed, Write, Decide, Replay, TablesOf, Empty;
    RunShape(cfg, ss, cmds, times);
    if i == 0 {
      NothingToReplay(ss[0]);
    } else {
      LogRebuildsTables(cfg, ss, cmds, times, i - 1);
      AlwaysKeyed(cfg, ss, cmds, times, i - 1);
      StepOf(cfg, ss, cmds, times, i - 1);
      ReplayStep(ss[i - 1], Decide(cfg, ss[i - 1], cmds[i - 1], times[i - 1]), times[i - 1]);
    }
  }

  /** Listener sessions are not rebuilt: closing a room ends them without telling the log. */
  lemma CloseLeavesNoTrace(s: State, roomId: string, order: seq<string>, now: Time)
    requires Keyed(s) && Do.Lists(order, ActiveIn(s.sessions, roomId))
    ensures var s' := Write(s, Do.CloseRoomSessions(s, roomId, order, now));
            && s'.events == s.events
            && (s'.sessions != s.sessions <==> ActiveIn(s.sessions, roomId) != {})
  {
    var ended := Do.CloseEach(s, order, now);
    CloseIsLegal(s, roomId, order, now);
    EndSessionsFrame(s, ended);
    EndSessionsEffect(s, ended);
    if id :| id in ActiveIn(s.sessions, roomId) {
      assert id in order;
      var i :| 0 <= i < |order| && order[i] == id;
      assert EndSessions(s, ended).sessions[ended[i].id] == ended[i];
    } else {
      assert order == [];
    }
  }
}
