/** The active recording of a room over whole runs, and the recordings it loses track of. */
module RecordingLaws {
  import opened Base
  import opened VoiceTypes
  import opened VoiceState
  import opened VoiceRuns
  import opened VoiceLaws
  import Do = VoiceCommands
  import Text

  predicate IsRecordingEvent(e: Event, roomId: string) {
    (e.eventType == RecordingStartedEvent || e.eventType == RecordingCompletedEvent) && e.roomId == roomId
  }

  /** The last recording event of the room in the log is the start of that recording. */
  predicate StartedLast(events: seq<Event>, roomId: string, id: string) {
    exists k :: 0 <= k < |events| && StartedAt(events, k, roomId, id)
  }

  predicate StartedAt(events: seq<Event>, k: nat, roomId: string, id: string)
    requires k < |events|
  {
    && events[k].eventType == RecordingStartedEvent && events[k].roomId == roomId
    && events[k].payload.OfRecording? && events[k].payload.recording.id == id
    && forall m :: k < m < |events| ==> !IsRecordingEvent(events[m], roomId)
  }

  lemma StartedLastGrows(events: seq<Event>, e: Event, roomId: string, id: string)
    ensures StartedLast(events + [e], roomId, id)
       <==> if IsRecordingEvent(e, roomId) then
              e.eventType == RecordingStartedEvent && e.payload.OfRecording? && e.payload.recording.id == id
            else StartedLast(events, roomId, id)
  {
    var longer := events + [e];
    if !IsRecordingEvent(e, roomId) {
      if k :| 0 <= k < |events| && StartedAt(events, k, roomId, id) {
        assert StartedAt(longer, k, roomId, id);
      }
      if k :| 0 <= k < |longer| && StartedAt(longer, k, roomId, id) {
        assert longer[|events|] == e;
        assert forall m :: k < m < |events| ==> events[m] == longer[m];
        assert StartedAt(events, k, roomId, id);
      }
    } else {
      assert longer[|events|] == e;
      if e.eventType == RecordingStartedEvent && e.payload.OfRecording? && e.payload.recording.id == id {
        assert StartedAt(longer, |events|, roomId, id);
      }
    }
  }

  lemma {:induction false} StartedLastSilent(events: seq<Event>, told: seq<Event>, roomId: string, id: string)
    requires forall i :: 0 <= i < |told| ==> !IsRecordingEvent(told[i], roomId)
    ensures StartedLast(events + told, roomId, id) <==> StartedLast(events, roomId, id)
  {
    hide StartedLast;
    if told == [] {
      assert events + told == events;
    } else {
      var n := |told| - 1;
      StartedLastSilent(events, told[..n], roomId, id);
      assert events + told == (events + told[..n]) + [told[n]];
      StartedLastGrows(events + told[..n], told[n], roomId, id);
    }
  }

  // ----- The invariant -----

  /** An active recording is a started one of its room. */
  predicate ActivesStarted(s: State) {
    forall roomId :: roomId in s.rooms && s.rooms[roomId].activeRecordingId != "" ==>
      && s.rooms[roomId].activeRecordingId in s.recordings
      && s.recordings[s.rooms[roomId].activeRecordingId].status == RecordingStarted
      && s.recordings[s.rooms[roomId].activeRecordingId].roomId == roomId
  }

  /** The room's active recording is the one its last recording event started, if that is what it did. */
  predicate ActiveByLog(s: State, roomId: string, id: string) {
    id != "" ==> (roomId in s.rooms && s.rooms[roomId].activeRecordingId == id <==> StartedLast(s.events, roomId, id))
  }

  lemma ActivesStep(s: State, change: Change, now: Time)
    requires Keyed(s) && Legal(s, change, now) && ActivesStarted(s)
    ensures ActivesStarted(Write(s, change))
  {
    hide LegalSpeaker, LegalListener, LegalRequest, LegalBlock, LegalReport, LegalEnds, ListenerPresent, ParticipantPresent;
    if change.EndListeners? {
      EndSessionsFrame(s, change.ended);
    }
  }

  /** No event but a recording's is a recording event, and no command but these moves the active recording. */
  lemma ByLogStep(s: State, change: Change, now: Time, roomId: string, id: string)
    requires Keyed(s) && Legal(s, change, now) && ActiveByLog(s, roomId, id)
    ensures ActiveByLog(Write(s, change), roomId, id)
  {
    hide StartedLast, Keyed, LegalSpeaker, StatsOf, Do.RoleOf, ListenerPresent, ParticipantPresent;
    match change
    case EndListeners(ended, told) =>
      EndSessionsFrame(s, ended);
      StartedLastSilent(s.events, told, roomId, id);
    case PutRecording(recording, room, e) => RecordingByLog(s, recording, room, e, now, roomId, id);
    case PutRoom(room, e, jobs) => RoomByLog(s, room, e, jobs, now, roomId, id);
    case PutListener(_, e) => StartedLastGrows(s.events, e, roomId, id);
    case PutRequest(_, e) => StartedLastGrows(s.events, e, roomId, id);
    case PutBlock(_, e) => StartedLastGrows(s.events, e, roomId, id);
    case PutReport(_, e) => StartedLastGrows(s.events, e, roomId, id);
    case Tell(e) => StartedLastGrows(s.events, e, roomId, id);
    case _ =>
  }

  lemma RecordingByLog(s: State, recording: Recording, room: Room, e: Event, now: Time, roomId: string, id: string)
    requires Keyed(s) && LegalRecording(s, recording, room, e, now) && ActiveByLog(s, roomId, id)
    ensures ActiveByLog(Write(s, PutRecording(recording, room, e)), roomId, id)
  {
    hide StartedLast;
    StartedLastGrows(s.events, e, roomId, id);
  }

  lemma RoomByLog(s: State, room: Room, e: Event, jobs: seq<JobRequest>, now: Time, roomId: string, id: string)
    requires Keyed(s) && LegalRoom(s, room, e, jobs, now) && ActiveByLog(s, roomId, id)
    ensures ActiveByLog(Write(s, PutRoom(room, e, jobs)), roomId, id)
  {
    hide StartedLast;
    StartedLastGrows(s.events, e, roomId, id);
  }

  lemma {:induction false} AlwaysActivesStarted(cfg: ServiceConfig, ss: seq<State>, cmds: seq<Command>, times: seq<Time>,
                                                i: nat)
    requires Run(cfg, ss, cmds, times) && i < |ss|
    ensures ActivesStarted(ss[i])
  {
    hide Run, Keyed, Legal, Write, Decide, Empty, Possible, ActivesStarted;
    RunShape(cfg, ss, cmds, times);
    if i == 0 {
      NoRoomsAtFirst(ss[0], "", "");
    } else {
      AlwaysActivesStarted(cfg, ss, cmds, times, i - 1);
      AlwaysKeyed(cfg, ss, cmds, times, i - 1);
      StepOf(cfg, ss, cmds, times, i - 1);
      ActivesStep(ss[i - 1], Decide(cfg, ss[i - 1], cmds[i - 1], times[i - 1]), times[i - 1]);
    }
  }

  lemma NoRoomsAtFirst(s: State, roomId: string, id: string)
    requires Empty(s)
    ensures ActivesStarted(s) && ActiveByLog(s, roomId, id)
  {
  }

  /** In every reachable state a non-empty active recording names a started recording of its room. */
  lemma ActiveRecordingIsStarted(cfg: ServiceConfig, ss: seq<State>, cmds: seq<Command>, times: seq<Time>, i: nat,
                                 roomId: string)
    requires Run(cfg, ss, cmds, times) && i < |ss| && roomId in ss[i].rooms && ss[i].rooms[roomId].activeRecordingId != ""
    ensures var id := ss[i].rooms[roomId].activeRecordingId;
            id in ss[i].recordings && ss[i].recordings[id].status == RecordingStarted && ss[i].recordings[id].roomId == roomId
  {
    hide Run;
    AlwaysActivesStarted(cfg, ss, cmds, times, i);
  }

  /**
   A recording is its room's active one if and only if the last recording event of the room started it. So a started
   recording is not the active one exactly when another start, or a stop of whichever recording, came after its start.
   */
  lemma {:induction false} ActiveRecordingIff(cfg: ServiceConfig, ss: seq<State>, cmds: seq<Command>, times: seq<Time>,
                                              i: nat, roomId: string, id: string)
    requires Run(cfg, ss, cmds, times) && i < |ss| && id != ""
    ensures roomId in ss[i].rooms && ss[i].rooms[roomId].activeRecordingId == id
       <==> StartedLast(ss[i].events, roomId, id)
  {
    hide Run, Keyed, Legal, Write, Decide, Empty, Possible, StartedLast;
    RunShape(cfg, ss, cmds, times);
    if i == 0 {
      NoRoomsAtFirst(ss[0], roomId, id);
    } else {
      ActiveRecordingIff(cfg, ss, cmds, times, i - 1, roomId, id);
      AlwaysKeyed(cfg, ss, cmds, times, i - 1);
      StepOf(cfg, ss, cmds, times, i - 1);
      ByLogStep(ss[i - 1], Decide(cfg, ss[i - 1], cmds[i - 1], times[i - 1]), times[i - 1], roomId, id);
    }
  }

  // ----- A run that loses track of a recording -----

  function RecordingConfig(): ServiceConfig {
    ServiceConfig(true, 0, "b", "r", "p")
  }

  /** Two recordings are started, and the first one is stopped. */
  function TwoRecordings(): seq<Command> {
    [CreateRoom("t", "o", [], [], "room", "st", "hls"), StartRoom("room", "o"), StartRecording("room", "o", "rec1"),
     StartRecording("room", "o", "rec2"), StopRecording("room", "rec1", "o")]
  }

  predicate Holds(s: State, id: string, status: RecordingStatus) {
    id in s.recordings && s.recordings[id].id == id && s.recordings[id].roomId == "room" && s.recordings[id].status == status
  }

  /** The state before command `n`. */
  predicate Recorded(n: nat, s: State) {
    && s.sessions == map[] && s.participants == map[] && s.requests == map[] && s.blocks == map[]
    && s.rooms.Keys == (if n == 0 then {} else {"room"})
    && (n > 0 ==>
          && s.rooms["room"].id == "room" && s.rooms["room"].ownerId == "o"
          && s.rooms["room"].status == (if n == 1 then Draft else Live)
          && s.rooms["room"].activeRecordingId == (if n == 3 then "rec1" else if n == 4 then "rec2" else ""))
    && s.recordings.Keys == (if n <= 2 then {} else if n == 3 then {"rec1"} else {"rec1", "rec2"})
    && (n >= 3 ==> Holds(s, "rec1", if n == 5 then RecordingCompleted else RecordingStarted))
    && (n >= 4 ==> Holds(s, "rec2", RecordingStarted))
  }

  lemma TitleIsNotBlank()
    ensures Text.TrimSpace("t") == "t" && Text.TrimSpace("o") == "o"
  {
  }

  lemma RoomCreated(s: State)
    requires Recorded(0, s)
    ensures var cmd := CreateRoom("t", "o", [], [], "room", "st", "hls");
            Possible(s, cmd) && Recorded(1, Apply(RecordingConfig(), s, cmd, 0))
  {
    hide Text.TrimSpace;
    TitleIsNotBlank();
  }

  lemma RoomStarted(s: State)
    requires Recorded(1, s)
    ensures Recorded(2, Apply(RecordingConfig(), s, StartRoom("room", "o"), 0))
  {
  }

  lemma RecordingAdded(n: nat, s: State, id: string)
    requires (n == 2 && id == "rec1") || (n == 3 && id == "rec2")
    requires Recorded(n, s)
    ensures var cmd := StartRecording("room", "o", id);
            Possible(s, cmd) && Recorded(n + 1, Apply(RecordingConfig(), s, cmd, 0))
  {
    hide Text.TrimSlashes;
  }

  lemma RecordingStopped(s: State)
    requires Recorded(4, s)
    ensures Recorded(5, Apply(RecordingConfig(), s, StopRecording("room", "rec1", "o"), 0))
  {
  }

  lemma RecordedStep(n: nat, s: State)
    requires n < 5 && Recorded(n, s)
    ensures Possible(s, TwoRecordings()[n])
    ensures Recorded(n + 1, Apply(RecordingConfig(), s, TwoRecordings()[n], 0))
  {
    hide Recorded, Apply, NewId, RecordingConfig;
    if n == 0 {
      RoomCreated(s);
    } else if n == 1 {
      RoomStarted(s);
    } else if n == 2 {
      RecordingAdded(2, s, "rec1");
    } else if n == 3 {
      RecordingAdded(3, s, "rec2");
    } else {
      RecordingStopped(s);
    }
  }

  lemma NothingRecorded() returns (s: State)
    ensures Empty(s) && Recorded(0, s)
  {
    s := State(map[], map[], map[], map[], map[], map[], map[], [], None, [], []);
  }

  lemma {:induction false} PlayRecordings(n: nat) returns (ss: seq<State>)
    requires n <= 5
    ensures |ss| == n + 1 && Empty(ss[0]) && forall i :: 0 <= i <= n ==> Recorded(i, ss[i])
    ensures forall i :: 0 <= i < n ==>
              Possible(ss[i], TwoRecordings()[i]) && ss[i + 1] == Apply(RecordingConfig(), ss[i], TwoRecordings()[i], 0)
  {
    hide Recorded, Possible, Apply, Empty, RecordingConfig;
    if n == 0 {
      var s := NothingRecorded();
      ss := [s];
    } else {
      ss := PlayRecordings(n - 1);
      RecordedStep(n - 1, ss[n - 1]);
      ss := ss + [Apply(RecordingConfig(), ss[n - 1], TwoRecordings()[n - 1], 0)];
    }
  }

  /** A reachable room with a recording still started and none active: stopping the other one cleared it. */
  lemma RecordingIsLost() returns (ss: seq<State>)
    ensures Run(RecordingConfig(), ss, TwoRecordings(), [0, 0, 0, 0, 0]) && |ss| == 6
    ensures "room" in ss[4].rooms && ss[4].rooms["room"].activeRecordingId == "rec2" && Holds(ss[4], "rec1", RecordingStarted)
    ensures "room" in ss[5].rooms && ss[5].rooms["room"].activeRecordingId == "" && Holds(ss[5], "rec2", RecordingStarted)
  {
    hide Possible, Apply, Empty;
    ss := PlayRecordings(5);
    assert Recorded(4, ss[4]) && Recorded(5, ss[5]);
  }
}
