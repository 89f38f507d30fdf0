/**
 A run over the shared queue in which a listener joins, the room is finished and its two jobs are worked off in the
 order they were asked for. The report says that nobody ever listened.
 */
module LostPeak {
  import opened Base
  import opened VoiceTypes
  import opened VoiceState
  import opened VoiceRuns
  import opened EndToEnd
  import opened MongoWorld
  import JobRegistry
  import opened PeakLaws
  import WorldLaws
  import Do = VoiceCommands
  import Async = AsyncTypes
  import Protocol = JobProtocol
  import Runner = JobRunner
  import Text
  import Mongo = MongoQueue
  import Queue = MemoryQueue

  function Plain(): Settings {
    Settings(ServiceConfig(false, 0, "b", "r", "p"), Async.Config(1, 5, 10, 1, 1, true, 1), 10)
  }

  /** A room is created, started, joined and finished; both jobs are delivered, and one after the other worked off. */
  function Plan(): seq<Step> {
    [Serve(CreateRoom("t", "o", [], [], "room", "st", "hls")), Serve(StartRoom("room", "o")),
     Serve(JoinRoom("room", "u", "s1")), Serve(FinishRoom("room", "o", "")),
     Deliver(0, "j1"), Deliver(1, "j2"),
     Job(Protocol.Take("j1", "w")), Work(0, CloseRoomSessions("room", ["s1"])), Job(Protocol.Report(0, Runner.Succeeded)),
     Job(Protocol.Take("j2", "w")), Work(1, GenerateReport("room", "o", "rep"))]
  }

  // ----- The service along the plan -----

  predicate Only(s: State, rooms: set<string>, sessions: set<string>) {
    && s.rooms.Keys == rooms && s.sessions.Keys == sessions && s.presence == None
    && s.participants == map[] && s.requests == map[] && s.blocks == map[] && s.recordings == map[]
  }

  predicate RoomIs(s: State, status: RoomStatus) {
    && "room" in s.rooms && s.rooms["room"].id == "room" && s.rooms["room"].status == status
    && s.rooms["room"].ownerId == "o" && s.rooms["room"].adminIds == [] && s.rooms["room"].moderatorIds == []
  }

  predicate SessionIs(s: State, status: SessionStatus) {
    && "s1" in s.sessions && s.sessions["s1"].id == "s1" && s.sessions["s1"].roomId == "room"
    && s.sessions["s1"].status == status
  }

  /** The service after as many of its commands as `n`. */
  predicate Served(n: nat, s: State) {
    && Only(s, if n == 0 then {} else {"room"}, if n <= 2 then {} else {"s1"})
    && (n > 0 ==> RoomIs(s, if n == 1 then Draft else if n <= 3 then Live else Finished))
    && (n > 2 ==> SessionIs(s, if n <= 4 then SessionActive else SessionLeft))
    && s.outbox == (if n <= 3 then [] else Do.FinishJobs("room", "o"))
    && (n == 6 ==> "room" in s.reports && s.reports["room"].summary.peakConcurrentListeners == 0)
  }

  lemma TitleIsNotBlank()
    ensures Text.TrimSpace("t") == "t" && Text.TrimSpace("o") == "o"
  {
  }

  lemma Created(s: State)
    requires Served(0, s)
    ensures var cmd := CreateRoom("t", "o", [], [], "room", "st", "hls");
            Possible(s, cmd) && Served(1, Apply(Plain().service, s, cmd, 0))
  {
    hide Text.TrimSpace;
    TitleIsNotBlank();
  }

  lemma Started(s: State)
    requires Served(1, s)
    ensures Served(2, Apply(Plain().service, s, StartRoom("room", "o"), 0))
  {
  }

  lemma Joined(s: State)
    requires Served(2, s)
    ensures var cmd := JoinRoom("room", "u", "s1");
            Possible(s, cmd) && Served(3, Apply(Plain().service, s, cmd, 0))
  {
    assert RequestsOf(s.requests, "room", "u", RequestApproved) == {};
  }

  lemma Ended(s: State)
    requires Served(3, s)
    ensures Served(4, Apply(Plain().service, s, FinishRoom("room", "o", ""), 0))
  {
    hide Text.TrimSpace;
  }

  lemma Closed(s: State)
    requires Served(4, s)
    ensures var cmd := CloseRoomSessions("room", ["s1"]);
            Possible(s, cmd) && Served(5, Apply(Plain().service, s, cmd, 0))
  {
    assert ActiveIn(s.sessions, "room") == {"s1"};
    var ended := Do.CloseEach(s, ["s1"], 0);
    assert ended[..0] == [] && EndSessions(s, []) == s;
    assert EndSessions(s, ended) == EndSession(s, ended[0]);
  }

  lemma Reported(s: State)
    requires Served(5, s)
    ensures var cmd := GenerateReport("room", "o", "rep");
            JobRegistry.HandlerSucceeds(s, cmd, 0) && Served(6, Apply(Plain().service, s, cmd, 0))
  {
    hide TotalSeconds, UsersOf, SpeakersIn;
    assert ActiveIn(s.sessions, "room") == {};
  }

  // ----- The queue along the plan -----

  function JobOf(n: nat): Async.Job
    requires n < 2
  {
    JobFor(Plain(), Do.FinishJobs("room", "o")[n], if n == 0 then "j1" else "j2", 0)
  }

  function Taken(n: nat): Async.Job
    requires n < 2
  {
    Async.Claim(JobOf(n), "w", 0, 10)
  }

  /** The queue before step `n`. */
  predicate Queued(n: nat, c: Protocol.Core) {
    && c.clock == 0
    && c.jobs == (if n <= 4 then map[] else if n == 5 then map["j1" := JobOf(0)]
                  else if n == 6 then map["j1" := JobOf(0), "j2" := JobOf(1)]
                  else if n <= 8 then map["j1" := Taken(0), "j2" := JobOf(1)]
                  else if n == 9 then map["j1" := Async.Complete(Taken(0), 0), "j2" := JobOf(1)]
                  else map["j1" := Async.Complete(Taken(0), 0), "j2" := Taken(1)])
    && c.tickets == (if n == 7 || n == 8 then map[0 := Taken(0)] else if n >= 10 then map[1 := Taken(1)] else map[])
    && c.issued == (if n <= 6 then 0 else if n <= 9 then 1 else 2)
    && (n >= 9 ==> |c.hist| >= 2 && c.hist[1] == Protocol.Done("j1", 1, 0))
    && (n == 7 || n == 8 ==> |c.hist| == 1)
    && (n <= 6 ==> c.hist == [])
  }

  /** The whole before step `n`. */
  predicate Planned(n: nat, w: Shared) {
    && Served(if n <= 4 then n else if n <= 7 then 4 else if n <= 10 then 5 else 6, w.voice)
    && Queued(n, w.core)
    && w.delivered == (if n <= 4 then {} else if n == 5 then {0} else {0, 1})
    && w.handled == (if n <= 7 then {} else if n <= 10 then {0} else {0, 1})
  }

  lemma ServeStep(n: nat, w: Shared)
    requires n < 4 && Planned(n, w)
    ensures SharedEnabled(Plain(), w, Plan()[n]) && Planned(n + 1, SharedNext(Plain(), w, Plan()[n]))
  {
    hide Served, Apply, NewId;
    if n == 0 {
      Created(w.voice);
    } else if n == 1 {
      Started(w.voice);
    } else if n == 2 {
      Joined(w.voice);
    } else {
      Ended(w.voice);
    }
  }

  lemma OutboxOf(s: State)
    requires Served(4, s)
    ensures s.outbox == Do.FinishJobs("room", "o")
  {
  }

  lemma DeliverStep(n: nat, w: Shared)
    requires 4 <= n < 6 && Planned(n, w)
    ensures SharedEnabled(Plain(), w, Plan()[n]) && Planned(n + 1, SharedNext(Plain(), w, Plan()[n]))
  {
    hide Served;
    OutboxOf(w.voice);
    EndToEnd.KeysAreDistinct("room", "room", "");
  }

  lemma FirstClaim(c: Protocol.Core)
    requires Queued(6, c)
    ensures var sa := Queue.Other(Protocol.Take("j1", "w"));
            Mongo.MongoOffered(Plain().queue, c, sa) && Queued(7, Mongo.MongoNext(Plain().queue, c, sa))
  {
    hide Do.CloseKey, Do.ReportKey;
  }

  lemma FirstReport(c: Protocol.Core)
    requires Queued(8, c)
    ensures var sa := Queue.Other(Protocol.Report(0, Runner.Succeeded));
            Mongo.MongoOffered(Plain().queue, c, sa) && Queued(9, Mongo.MongoNext(Plain().queue, c, sa))
  {
    hide Do.CloseKey, Do.ReportKey;
  }

  lemma SecondClaim(c: Protocol.Core)
    requires Queued(9, c)
    ensures var sa := Queue.Other(Protocol.Take("j2", "w"));
            Mongo.MongoOffered(Plain().queue, c, sa) && Queued(10, Mongo.MongoNext(Plain().queue, c, sa))
  {
    hide Do.CloseKey, Do.ReportKey;
  }

  lemma QueueStep(n: nat, w: Shared)
    requires (n == 6 || n == 8 || n == 9) && Planned(n, w)
    ensures SharedEnabled(Plain(), w, Plan()[n]) && Planned(n + 1, SharedNext(Plain(), w, Plan()[n]))
  {
    hide Served, Queued, Plain, Mongo.MongoOffered, Mongo.MongoNext;
    if n == 6 {
      FirstClaim(w.core);
    } else if n == 8 {
      FirstReport(w.core);
    } else {
      SecondClaim(w.core);
    }
  }

  lemma WorkStep(n: nat, w: Shared)
    requires (n == 7 || n == 10) && Planned(n, w)
    ensures SharedEnabled(Plain(), w, Plan()[n]) && Planned(n + 1, SharedNext(Plain(), w, Plan()[n]))
  {
    hide Served, Apply, JobRegistry.HandlerSucceeds, Possible, Do.CloseKey, Do.ReportKey;
    if n == 7 {
      Closed(w.voice);
      CloseSucceeds(w.voice);
    } else {
      Reported(w.voice);
      ReportPossible(w.voice);
    }
  }

  lemma CloseSucceeds(s: State)
    ensures JobRegistry.HandlerSucceeds(s, CloseRoomSessions("room", ["s1"]), 0)
  {
  }

  lemma ReportPossible(s: State)
    ensures Possible(s, GenerateReport("room", "o", "rep"))
  {
  }

  lemma PlannedStep(n: nat, w: Shared)
    requires n < 11 && Planned(n, w)
    ensures SharedEnabled(Plain(), w, Plan()[n]) && Planned(n + 1, SharedNext(Plain(), w, Plan()[n]))
  {
    hide Planned, SharedEnabled, SharedNext;
    if n < 4 {
      ServeStep(n, w);
    } else if n < 6 {
      DeliverStep(n, w);
    } else if n == 6 || n == 8 || n == 9 {
      QueueStep(n, w);
    } else {
      WorkStep(n, w);
    }
  }

  lemma FirstWorld() returns (w: Shared)
    ensures Start(Seen(w)) && Planned(0, w)
  {
    w := Shared(State(map[], map[], map[], map[], map[], map[], map[], [], None, [], []),
                Protocol.Core(map[], 0, map[], 0, []), {}, {});
  }

  lemma {:induction false} Play(n: nat) returns (ws: seq<Shared>)
    requires n <= 11
    ensures |ws| == n + 1 && Start(Seen(ws[0])) && forall i :: 0 <= i <= n ==> Planned(i, ws[i])
    ensures forall i :: 0 <= i < n ==>
              SharedEnabled(Plain(), ws[i], Plan()[i]) && ws[i + 1] == SharedNext(Plain(), ws[i], Plan()[i])
  {
    hide Planned, SharedEnabled, SharedNext, Start, Plain;
    if n == 0 {
      var w := FirstWorld();
      ws := [w];
    } else {
      ws := Play(n - 1);
      PlannedStep(n - 1, ws[n - 1]);
      ws := ws + [SharedNext(Plain(), ws[n - 1], Plan()[n - 1])];
    }
  }

  function Voices(ws: seq<Shared>): (ss: seq<State>)
    ensures |ss| == |ws| && forall k :: 0 <= k < |ws| ==> ss[k] == ws[k].voice
  {
    seq(|ws|, k requires 0 <= k < |ws| => ws[k].voice)
  }

  lemma OneListens(w: Shared)
    requires Planned(3, w)
    ensures Listening(w.voice, "room") == 1
  {
    assert ActiveIn(w.voice.sessions, "room") == {"s1"};
  }

  lemma CloseIsDone(w: Shared)
    requires Planned(9, w)
    ensures WorldLaws.ReportedDone(w.core, Do.CloseKey("room"))
  {
    assert w.core.hist[1].Done? && w.core.jobs[w.core.hist[1].jobId].key == Do.CloseKey("room");
  }

  /** One listener at the peak; the report says none, and the close job was reported complete before it was made. */
  lemma ReportForgetsListeners() returns (ws: seq<Shared>)
    ensures SharedRun(Plain(), ws, Plan()) && |ws| == 12
    ensures WorldLaws.ReportedDone(ws[9].core, Do.CloseKey("room"))
    ensures TruePeak(Voices(ws), 11, "room") >= 1
    ensures "room" in ws[11].voice.reports && ws[11].voice.reports["room"].summary.peakConcurrentListeners == 0
  {
    hide SharedEnabled, SharedNext, Start, Plain, TruePeak, Listening, Queued, WorldLaws.ReportedDone;
    ws := Play(11);
    assert Async.Normalised(Plain().queue) by { PlainIsNormal(); }
    OneListens(ws[3]);
    CloseIsDone(ws[9]);
    TruePeakIsPeak(Voices(ws), 11, "room");
    assert Listening(Voices(ws)[3], "room") == 1;
    assert Planned(11, ws[11]);
  }

  lemma PlainIsNormal()
    ensures Async.Normalised(Plain().queue)
  {
  }
}
