/**
 The service and the job queue together. Finishing a room asks for two jobs; workers claim them, run the handlers
 of internal/worker/asyncjobs/registry.go against the service and report. Everything interleaves: requests reach
 the queue any time after the command, in any order or never, and workers may crash, report late or run a handler
 again before they report.
 */
module EndToEnd {
  import opened Base
  import opened VoiceTypes
  import opened VoiceState
  import opened VoiceRuns
  import opened VoiceLaws
  import RoomLaws
  import Do = VoiceCommands
  import Async = AsyncTypes
  import Protocol = JobProtocol
  import Queue = MemoryQueue
  import Jobs = MemoryJobStore
  import Runner = JobRunner
  import JobRegistry

  datatype Settings = Settings(service: ServiceConfig, queue: Async.Config, listenerTimeout: Time)

  /**
   The service state, the queue, which of the jobs asked for were enqueued, and the tickets whose handler
   returned without an error.
   */
  datatype World = World(voice: State, queue: Queue.Mem, delivered: set<nat>, handled: set<nat>)

  datatype Step =
    | Serve(cmd: Command)
    | Deliver(request: nat, jobId: string)
    | Schedule(jobId: string, key: string)
    | Work(ticket: nat, handlerCmd: Command)
    | Job(a: Protocol.Action)

  function JobFor(x: Settings, r: JobRequest, jobId: string, now: Time): Async.Job {
    Async.NewJob(x.queue, jobId, r.jobType, r.key, Async.RoomJob(r.roomId, r.actorUserId), now)
  }

  predicate NewJobId(w: World, jobId: string) {
    jobId != "" && jobId !in w.queue.core.jobs
  }

  ghost predicate Enabled(x: Settings, w: World, a: Step) {
    var now := w.queue.core.clock;
    match a
    case Serve(cmd) => !cmd.CloseRoomSessions? && !cmd.ExpireStale? && Possible(w.voice, cmd)
    case Deliver(n, jobId) => n < |w.voice.outbox| && n !in w.delivered && NewJobId(w, jobId)
    case Schedule(jobId, key) => NewJobId(w, jobId) && "scheduler:" <= key
    case Work(t, cmd) =>
      && t in w.queue.core.tickets && t !in w.handled
      && JobRegistry.Handles(x.listenerTimeout, w.voice, w.queue.core.tickets[t], cmd, now) && Possible(w.voice, cmd)
    case Job(a) =>
      && !a.Insert? && Protocol.Enabled(x.queue, w.queue.core, a)
      && (a.Report? && a.outcome.Succeeded? ==> a.ticket in w.handled)
  }

  function Enqueued(x: Settings, w: World, job: Async.Job): Queue.Mem
    requires NewJobId(w, job.id) && Protocol.FreshJob(x.queue, job, w.queue.core.clock)
  {
    Queue.MemNext(x.queue, w.queue, Queue.Enqueue(job))
  }

  ghost function Next(x: Settings, w: World, a: Step): World
    requires Enabled(x, w, a)
  {
    var now := w.queue.core.clock;
    match a
    case Serve(cmd) => w.(voice := Apply(x.service, w.voice, cmd, now))
    case Deliver(n, jobId) =>
      w.(queue := Enqueued(x, w, JobFor(x, w.voice.outbox[n], jobId, now)), delivered := w.delivered + {n})
    case Schedule(jobId, key) =>
      var job := Async.NewJob(x.queue, jobId, Do.EXPIRE_LISTENER_SESSIONS, key, Async.Scheduled(now), now);
      w.(queue := Enqueued(x, w, job))
    case Work(t, cmd) =>
      w.(voice := Apply(x.service, w.voice, cmd, now),
         handled := if JobRegistry.HandlerSucceeds(w.voice, cmd, now) then w.handled + {t} else w.handled)
    case Job(a) => w.(queue := Queue.MemNext(x.queue, w.queue, Queue.Other(a)))
  }

  ghost predicate Start(w: World) {
    Empty(w.voice) && Protocol.Init(w.queue.core) && w.queue.index == map[] && w.delivered == {} && w.handled == {}
  }

  ghost predicate WorldRun(x: Settings, ws: seq<World>, steps: seq<Step>) {
    && Async.Normalised(x.queue)
    && |ws| == |steps| + 1
    && Start(ws[0])
    && forall i :: 0 <= i < |steps| ==> Enabled(x, ws[i], steps[i]) && ws[i + 1] == Next(x, ws[i], steps[i])
  }

  // ----- Keys -----

  /** A job key names its kind and its room. */
  lemma KeysAreDistinct(a: string, b: string, key: string)
    ensures Do.CloseKey(a) == Do.CloseKey(b) ==> a == b
    ensures Do.ReportKey(a) == Do.ReportKey(b) ==> a == b
    ensures Do.CloseKey(a) != Do.ReportKey(b)
    ensures "scheduler:" <= key ==> key != Do.CloseKey(a) && key != Do.ReportKey(a)
  {
    var ca, cb := Do.CloseKey(a), Do.CloseKey(b);
    var ra, rb := Do.ReportKey(a), Do.ReportKey(b);
    assert ca[5..5 + |a|] == a && cb[5..5 + |b|] == b;
    assert ra[5..5 + |a|] == a && rb[5..5 + |b|] == b;
    assert ca[|ca| - 4] == 's' && rb[|rb| - 4] == 't';
    assert ca[0] == 'r' && ra[0] == 'r';
    assert "scheduler:" <= key ==> key[0] == 's';
  }

  // ----- What every reachable world keeps -----

  predicate RoomOver(s: State, roomId: string) {
    roomId in s.rooms && s.rooms[roomId].status == Finished
  }

  /** The job was asked for by whoever finished its room, or by the scheduler, and its fields say so. */
  predicate Asked(s: State, jobType: string, key: string, payload: Async.Payload) {
    if payload.RoomJob? then
      && RoomOver(s, payload.roomId) && CanModerate(s, payload.roomId, payload.actorUserId)
      && (|| (jobType == Do.CLOSE_ROOM_SESSIONS && key == Do.CloseKey(payload.roomId))
          || (jobType == Do.GENERATE_ROOM_REPORT && key == Do.ReportKey(payload.roomId)))
    else jobType == Do.EXPIRE_LISTENER_SESSIONS && "scheduler:" <= key
  }

  predicate JobAsked(s: State, job: Async.Job) {
    Asked(s, job.jobType, job.key, job.payload)
  }

  predicate RequestAsked(s: State, r: JobRequest) {
    Asked(s, r.jobType, r.key, Async.RoomJob(r.roomId, r.actorUserId))
  }

  /** What a handler that returned without an error has achieved. */
  predicate WorkDone(s: State, job: Async.Job) {
    job.payload.RoomJob? ==>
      && (job.jobType == Do.CLOSE_ROOM_SESSIONS ==> ActiveIn(s.sessions, job.payload.roomId) == {})
      && (job.jobType == Do.GENERATE_ROOM_REPORT ==> job.payload.roomId in s.reports)
  }

  predicate SameJob(a: Async.Job, b: Async.Job) {
    a.id == b.id && a.jobType == b.jobType && a.key == b.key && a.payload == b.payload
  }

  /** Jobs were asked for, and tickets are copies of them. */
  predicate QueueSound(s: State, c: Protocol.Core) {
    && Jobs.Filed(c.jobs)
    && (forall id :: id in c.jobs ==> JobAsked(s, c.jobs[id]))
    && (forall t :: t in c.tickets ==>
          t < c.issued && c.tickets[t].id in c.jobs && SameJob(c.tickets[t], c.jobs[c.tickets[t].id]))
  }

  predicate RequestsAsked(s: State) {
    forall n :: 0 <= n < |s.outbox| ==> RequestAsked(s, s.outbox[n])
  }

  /** A finished room has asked for both its jobs. */
  ghost predicate FinishedAsked(s: State) {
    forall roomId :: RoomOver(s, roomId) ==> HasRequest(s, Do.CloseKey(roomId)) && HasRequest(s, Do.ReportKey(roomId))
  }

  predicate HasRequest(s: State, key: string) {
    exists n :: 0 <= n < |s.outbox| && s.outbox[n].key == key
  }

  /** What was delivered has a job under its key. */
  predicate Delivered(outbox: seq<JobRequest>, delivered: set<nat>, q: Queue.Mem) {
    && Queue.IndexSound(q.core.jobs, q.index)
    && (forall n :: n in delivered ==> n < |outbox| && outbox[n].key in q.index)
  }

  /** Handled tickets have achieved their work, as have the jobs reported complete. */
  predicate WorkSound(s: State, c: Protocol.Core, handled: set<nat>) {
    && (forall t :: t in handled ==> t < c.issued)
    && (forall t :: t in handled && t in c.tickets ==> WorkDone(s, c.tickets[t]))
    && (forall k :: 0 <= k < |c.hist| && c.hist[k].Done? ==>
          c.hist[k].jobId in c.jobs && WorkDone(s, c.jobs[c.hist[k].jobId]))
  }

  ghost predicate WorldSound(w: World) {
    && RoomLaws.Sound(w.voice) && RequestsAsked(w.voice) && FinishedAsked(w.voice)
    && QueueSound(w.voice, w.queue.core) && WorkSound(w.voice, w.queue.core, w.handled)
    && Delivered(w.voice.outbox, w.delivered, w.queue)
  }

  // ----- What a command of the service carries over -----

  /** Rooms stay finished and moderated, reports stay, and a finished room gains no listener. */
  ghost predicate Carries(s: State, s': State) {
    && RoomsSucceed(s.rooms, s'.rooms) && RoomsStaged(s')
    && s.reports.Keys <= s'.reports.Keys
    && s.outbox <= s'.outbox
    && (forall roomId :: RoomOver(s, roomId) ==> ActiveIn(s'.sessions, roomId) <= ActiveIn(s.sessions, roomId))
  }

  lemma NoNewListeners(s: State, change: Change, now: Time, roomId: string)
    requires Legal(s, change, now) && RoomOver(s, roomId)
    ensures ActiveIn(Write(s, change).sessions, roomId) <= ActiveIn(s.sessions, roomId)
  {
    hide LegalRoom, LegalRecording, LegalSpeaker, LegalRequest, LegalBlock, LegalReport;
    hide ListenerPresent, ParticipantPresent, Do.RoleOf;
    if change.EndListeners? {
      var ended := change.ended;
      EndSessionsFrame(s, ended);
      EndSessionsEffect(s, ended);
      EndsAddNobody(s.sessions, ended, EndSessions(s, ended).sessions, roomId);
    }
  }

  lemma EndsAddNobody(before: map<string, ListenerSession>, ended: seq<ListenerSession>,
                      after: map<string, ListenerSession>, roomId: string)
    requires Replaces(before, ended, after)
    requires forall i :: 0 <= i < |ended| ==> ended[i].status != SessionActive
    ensures ActiveIn(after, roomId) <= ActiveIn(before, roomId)
  {
  }

  lemma ChangeCarries(s: State, change: Change, now: Time)
    requires RoomLaws.Sound(s) && Legal(s, change, now)
    ensures Carries(s, Write(s, change))
  {
    hide Legal, RoomsSucceed, OneStage, RoomsStaged, Keyed, SessionsSound, SpeakingSound, ActiveIn, RoomOver;
    RoomLaws.SoundWrite(s, change, now);
    forall roomId | RoomOver(s, roomId)
      ensures ActiveIn(Write(s, change).sessions, roomId) <= ActiveIn(s.sessions, roomId)
    {
      NoNewListeners(s, change, now, roomId);
    }
    if change.EndListeners? {
      EndSessionsFrame(s, change.ended);
    }
  }

  lemma StaysAsked(s: State, s': State, jobType: string, key: string, payload: Async.Payload)
    requires Carries(s, s') && Asked(s, jobType, key, payload)
    ensures Asked(s', jobType, key, payload)
  {
    hide ActiveIn;
    if payload.RoomJob? {
      assert Successor(s.rooms[payload.roomId], s'.rooms[payload.roomId]);
      assert Staged(s'.rooms[payload.roomId]);
    }
  }

  lemma StaysDone(s: State, s': State, job: Async.Job)
    requires Carries(s, s') && JobAsked(s, job) && WorkDone(s, job)
    ensures WorkDone(s', job)
  {
    hide RoomsSucceed, RoomsStaged, CanModerate, ActiveIn;
  }

  lemma QueueStaysSound(s: State, s': State, c: Protocol.Core, handled: set<nat>)
    requires Carries(s, s') && QueueSound(s, c) && WorkSound(s, c, handled)
    ensures QueueSound(s', c) && WorkSound(s', c, handled)
  {
    hide Carries, Asked, WorkDone;
    forall id | id in c.jobs
      ensures JobAsked(s', c.jobs[id])
    {
      StaysAsked(s, s', c.jobs[id].jobType, c.jobs[id].key, c.jobs[id].payload);
    }
    forall t | t in handled && t in c.tickets
      ensures WorkDone(s', c.tickets[t])
    {
      var job := c.jobs[c.tickets[t].id];
      assert SameJob(c.tickets[t], job) && JobAsked(s, job);
      StaysDone(s, s', c.tickets[t]);
    }
    forall k | 0 <= k < |c.hist| && c.hist[k].Done?
      ensures c.hist[k].jobId in c.jobs && WorkDone(s', c.jobs[c.hist[k].jobId])
    {
      StaysDone(s, s', c.jobs[c.hist[k].jobId]);
    }
  }

  // ----- Requests -----

  lemma RequestsStep(s: State, change: Change, now: Time)
    requires RoomLaws.Sound(s) && Legal(s, change, now) && RequestsAsked(s)
    ensures RequestsAsked(Write(s, change))
  {
    hide Legal, Asked, Carries, RoomLaws.Sound;
    var s' := Write(s, change);
    ChangeCarries(s, change, now);
    forall n | 0 <= n < |s'.outbox|
      ensures RequestAsked(s', s'.outbox[n])
    {
      if n < |s.outbox| {
        OutboxGrows(s, change, n);
        StaysAsked(s, s', s.outbox[n].jobType, s.outbox[n].key, Async.RoomJob(s.outbox[n].roomId, s.outbox[n].actorUserId));
      } else {
        NewRequestIsAsked(s, change, now, n);
      }
    }
  }

  lemma OutboxGrows(s: State, change: Change, n: nat)
    requires n < |s.outbox|
    ensures |Write(s, change).outbox| >= |s.outbox| && Write(s, change).outbox[n] == s.outbox[n]
  {
    if change.EndListeners? {
      EndSessionsFrame(s, change.ended);
    }
  }

  lemma NewRequestIsAsked(s: State, change: Change, now: Time, n: nat)
    requires Legal(s, change, now) && |s.outbox| <= n < |Write(s, change).outbox|
    ensures RequestAsked(Write(s, change), Write(s, change).outbox[n])
  {
    hide LegalRecording, LegalSpeaker, LegalListener, LegalRequest, LegalBlock, LegalReport, Do.CloseKey, Do.ReportKey;
    if change.EndListeners? {
      EndSessionsFrame(s, change.ended);
    }
  }

  lemma FinishedStep(s: State, change: Change, now: Time)
    requires RoomLaws.Sound(s) && Legal(s, change, now) && FinishedAsked(s)
    ensures FinishedAsked(Write(s, change))
  {
    hide RoomLaws.Sound, Legal, HasRequest, RoomOver, Do.CloseKey, Do.ReportKey;
    var s' := Write(s, change);
    forall roomId | RoomOver(s', roomId)
      ensures HasRequest(s', Do.CloseKey(roomId)) && HasRequest(s', Do.ReportKey(roomId))
    {
      if RoomOver(s, roomId) {
        RequestLasts(s, change, Do.CloseKey(roomId));
        RequestLasts(s, change, Do.ReportKey(roomId));
      } else {
        FinishingAsks(s, change, now, roomId);
      }
    }
  }

  lemma RequestLasts(s: State, change: Change, key: string)
    requires HasRequest(s, key)
    ensures HasRequest(Write(s, change), key)
  {
    hide Write;
    var n :| 0 <= n < |s.outbox| && s.outbox[n].key == key;
    OutboxGrows(s, change, n);
  }

  lemma FinishingAsks(s: State, change: Change, now: Time, roomId: string)
    requires Legal(s, change, now) && !RoomOver(s, roomId) && RoomOver(Write(s, change), roomId)
    ensures HasRequest(Write(s, change), Do.CloseKey(roomId)) && HasRequest(Write(s, change), Do.ReportKey(roomId))
  {
    hide LegalSpeaker, LegalListener, LegalRequest, LegalBlock, LegalReport, Do.CloseKey, Do.ReportKey;
    if change.EndListeners? {
      EndSessionsFrame(s, change.ended);
    }
    if change.PutRoom? {
      var s' := Write(s, change);
      assert s'.outbox[|s.outbox|].key == Do.CloseKey(roomId);
      assert s'.outbox[|s.outbox| + 1].key == Do.ReportKey(roomId);
    }
  }

  lemma CommandStep(w: World, change: Change, now: Time)
    requires WorldSound(w) && Legal(w.voice, change, now)
    ensures WorldSound(w.(voice := Write(w.voice, change)))
  {
    hide Legal, QueueSound, WorkSound, FinishedAsked, RequestsAsked, Queue.IndexSound, Keyed, RoomsStaged, SessionsSound,
         SpeakingSound, Write;
    RoomLaws.SoundWrite(w.voice, change, now);
    RequestsStep(w.voice, change, now);
    FinishedStep(w.voice, change, now);
    ChangeCarries(w.voice, change, now);
    QueueStaysSound(w.voice, Write(w.voice, change), w.queue.core, w.handled);
  }

  // ----- What a step of the queue carries over -----

  /** Jobs keep their identity. */
  predicate JobsKept(jobs: Jobs.Jobs, jobs': Jobs.Jobs) {
    forall id :: id in jobs ==> id in jobs' && SameJob(jobs[id], jobs'[id])
  }

  lemma ReportKeepsJobs(cfg: Async.Config, jobs: Jobs.Jobs, copy: Async.Job, outcome: Runner.Outcome, now: Time)
    requires Jobs.Filed(jobs)
    ensures var jobs' := Runner.ReportIn(cfg, jobs, copy, outcome, now);
            Jobs.Filed(jobs') && JobsKept(jobs, jobs') && jobs'.Keys == jobs.Keys
  {
    hide Runner.ReportOn;
    if copy.id in jobs {
      Queue.ReportKeepsIdentity(cfg, jobs[copy.id], copy, outcome, now);
    }
  }

  lemma QueueKeepsJobs(cfg: Async.Config, c: Protocol.Core, a: Protocol.Action)
    requires Protocol.Enabled(cfg, c, a) && Jobs.Filed(c.jobs)
    ensures var c' := Protocol.Next(cfg, c, a);
            && Jobs.Filed(c'.jobs) && JobsKept(c.jobs, c'.jobs)
            && c'.jobs.Keys == c.jobs.Keys + (if a.Insert? then {a.job.id} else {})
  {
    hide Runner.ReportIn, Protocol.ReportEvent;
    if a.Report? {
      ReportKeepsJobs(cfg, c.jobs, c.tickets[a.ticket], a.outcome, c.clock);
    }
  }

  lemma QueueStep(cfg: Async.Config, s: State, c: Protocol.Core, a: Protocol.Action, handled: set<nat>)
    requires Protocol.Enabled(cfg, c, a) && QueueSound(s, c) && WorkSound(s, c, handled)
    requires a.Insert? ==> JobAsked(s, a.job)
    requires a.Report? && a.outcome.Succeeded? ==> a.ticket in handled
    ensures QueueSound(s, Protocol.Next(cfg, c, a)) && WorkSound(s, Protocol.Next(cfg, c, a), handled)
  {
    hide Asked, WorkDone, Runner.ReportIn, JobsKept;
    QueueKeepsJobs(cfg, c, a);
    var c' := Protocol.Next(cfg, c, a);
    forall id | id in c'.jobs
      ensures JobAsked(s, c'.jobs[id])
    {
      if id in c.jobs {
        KeptAt(c.jobs, c'.jobs, id);
        assert JobAsked(s, c.jobs[id]);
      }
    }
    forall t | t in c'.tickets
      ensures t < c'.issued && c'.tickets[t].id in c'.jobs && SameJob(c'.tickets[t], c'.jobs[c'.tickets[t].id])
    {
      if t in c.tickets && t != c.issued {
        KeptAt(c.jobs, c'.jobs, c.tickets[t].id);
      }
    }
    WorkStep(cfg, s, c, a, handled);
  }

  lemma KeptAt(jobs: Jobs.Jobs, jobs': Jobs.Jobs, id: string)
    requires JobsKept(jobs, jobs') && id in jobs
    ensures id in jobs' && SameJob(jobs[id], jobs'[id])
  {
  }

  lemma SameWork(s: State, a: Async.Job, b: Async.Job)
    requires SameJob(a, b) && WorkDone(s, a)
    ensures WorkDone(s, b)
  {
    hide ActiveIn;
  }

  lemma WorkStep(cfg: Async.Config, s: State, c: Protocol.Core, a: Protocol.Action, handled: set<nat>)
    requires Protocol.Enabled(cfg, c, a) && QueueSound(s, c) && WorkSound(s, c, handled)
    requires a.Report? && a.outcome.Succeeded? ==> a.ticket in handled
    ensures WorkSound(s, Protocol.Next(cfg, c, a), handled)
  {
    hide Asked, WorkDone, Runner.ReportIn, JobsKept;
    QueueKeepsJobs(cfg, c, a);
    var c' := Protocol.Next(cfg, c, a);
    forall k | 0 <= k < |c'.hist| && c'.hist[k].Done?
      ensures c'.hist[k].jobId in c'.jobs && WorkDone(s, c'.jobs[c'.hist[k].jobId])
    {
      var id := c'.hist[k].jobId;
      if k < |c.hist| {
        assert c'.hist[k] == c.hist[k];
      } else {
        SameWork(s, c.tickets[a.ticket], c.jobs[id]);
      }
      KeptAt(c.jobs, c'.jobs, id);
      SameWork(s, c.jobs[id], c'.jobs[id]);
    }
  }

  // ----- One step of the world -----

  /** A queue step, whatever the store does with it, keeps the world sound and every key filed. */
  lemma StoreStep(x: Settings, w: World, sa: Queue.StoreAction)
    requires WorldSound(w) && Queue.Offered(x.queue, w.queue.core, sa)
    requires sa.Enqueue? ==> JobAsked(w.voice, sa.job)
    requires sa.Other? && sa.a.Report? && sa.a.outcome.Succeeded? ==> sa.a.ticket in w.handled
    ensures WorldSound(w.(queue := Queue.MemNext(x.queue, w.queue, sa)))
    ensures sa.Enqueue? ==> sa.job.key in Queue.MemNext(x.queue, w.queue, sa).index
  {
    hide RoomLaws.Sound, RequestsAsked, FinishedAsked, WorkSound, Queue.IndexSound, JobAsked, Protocol.Next;
    var a := Queue.MemAction(w.queue, sa);
    QueueStep(x.queue, w.voice, w.queue.core, a, w.handled);
    Queue.IndexSoundStep(x.queue, w.queue, sa);
  }

  lemma CloseAchieves(s: State, roomId: string, order: seq<string>, now: Time)
    requires Keyed(s) && Do.Lists(order, ActiveIn(s.sessions, roomId))
    ensures ActiveIn(Write(s, Do.CloseRoomSessions(s, roomId, order, now)).sessions, roomId) == {}
  {
    hide EndSession, Keyed, Do.Lists, ActiveIn, Do.CloseEach;
    EachClosed(s, roomId, order, now);
    var ended := Do.CloseEach(s, order, now);
    EndSessionsFrame(s, ended);
    EndSessionsEffect(s, ended);
    NoneLeftActive(s.sessions, ended, EndSessions(s, ended).sessions, roomId);
  }

  lemma EachClosed(s: State, roomId: string, order: seq<string>, now: Time)
    requires Keyed(s) && Do.Lists(order, ActiveIn(s.sessions, roomId))
    ensures forall i :: 0 <= i < |order| ==> order[i] in s.sessions
    ensures var ended := Do.CloseEach(s, order, now);
            && (forall i :: 0 <= i < |ended| ==> ended[i].id in s.sessions && ended[i].status != SessionActive)
            && (forall i, j :: 0 <= i < j < |ended| ==> ended[i].id != ended[j].id)
            && (forall id :: id in ActiveIn(s.sessions, roomId) ==> exists i :: 0 <= i < |ended| && ended[i].id == id)
  {
    var ended := Do.CloseEach(s, order, now);
    forall id | id in ActiveIn(s.sessions, roomId)
      ensures exists i :: 0 <= i < |ended| && ended[i].id == id
    {
      var i :| 0 <= i < |order| && order[i] == id;
      assert ended[i].id == id;
    }
  }

  lemma NoneLeftActive(before: map<string, ListenerSession>, ended: seq<ListenerSession>,
                       after: map<string, ListenerSession>, roomId: string)
    requires Replaces(before, ended, after)
    requires forall i :: 0 <= i < |ended| ==> ended[i].status != SessionActive
    requires forall id :: id in ActiveIn(before, roomId) ==> exists i :: 0 <= i < |ended| && ended[i].id == id
    ensures ActiveIn(after, roomId) == {}
  {
    forall id | id in after
      ensures id !in ActiveIn(after, roomId)
    {
      if i :| 0 <= i < |ended| && ended[i].id == id {
        assert after[ended[i].id] == ended[i];
      } else {
        assert id !in ActiveIn(before, roomId);
      }
    }
  }

  lemma ReportAchieves(s: State, roomId: string, actor: string, reportId: string, now: Time)
    requires Do.GenerateReport(s, roomId, actor, reportId, now).1.Ok?
    ensures roomId in Write(s, Do.GenerateReport(s, roomId, actor, reportId, now).0).reports
  {
    hide StatsOf;
  }

  /** A handler that answers no error has done the work its job stands for. */
  lemma HandlerAchieves(x: Settings, s: State, job: Async.Job, cmd: Command, now: Time)
    requires Keyed(s) && JobAsked(s, job) && JobRegistry.Handles(x.listenerTimeout, s, job, cmd, now) && Possible(s, cmd)
    requires JobRegistry.HandlerSucceeds(s, cmd, now)
    ensures WorkDone(Apply(x.service, s, cmd, now), job)
  {
    hide Write, Keyed, ActiveIn, RoomOver, CanModerate, Do.CloseRoomSessions, Do.GenerateReport, Do.ExpireStale,
         Do.CloseKey, Do.ReportKey, Do.Lists, Do.ListsStale;
    match cmd
    case CloseRoomSessions(roomId, order) => CloseAchieves(s, roomId, order, now);
    case GenerateReport(roomId, actor, id) => ReportAchieves(s, roomId, actor, id, now);
    case _ =>
  }

  lemma WorkingStep(x: Settings, w: World, t: nat, cmd: Command)
    requires WorldSound(w) && Enabled(x, w, Work(t, cmd))
    ensures WorldSound(Next(x, w, Work(t, cmd)))
  {
    hide JobRegistry.Handles, JobRegistry.HandlerSucceeds, Legal, Decide, Keyed, RoomsStaged, SessionsSound, SpeakingSound,
         RequestsAsked, FinishedAsked, Delivered, WorkDone, Write, JobAsked, Possible;
    var now := w.queue.core.clock;
    var job := w.queue.core.tickets[t];
    assert SameJob(job, w.queue.core.jobs[job.id]) && JobAsked(w.voice, w.queue.core.jobs[job.id]);
    DecisionsAreLegal(x.service, w.voice, cmd, now);
    CommandStep(w, Decide(x.service, w.voice, cmd, now), now);
    if JobRegistry.HandlerSucceeds(w.voice, cmd, now) {
      AskedAlike(w.voice, w.queue.core.jobs[job.id], job);
      HandlerAchieves(x, w.voice, job, cmd, now);
    }
  }

  lemma AskedAlike(s: State, a: Async.Job, b: Async.Job)
    requires SameJob(b, a) && JobAsked(s, a)
    ensures JobAsked(s, b)
  {
    hide Asked;
  }

  lemma DeliveringStep(x: Settings, w: World, n: nat, jobId: string)
    requires WorldSound(w) && Enabled(x, w, Deliver(n, jobId))
    ensures WorldSound(Next(x, w, Deliver(n, jobId)))
  {
    hide RoomLaws.Sound, FinishedAsked, WorkSound, QueueSound, Queue.IndexSound, Asked, Protocol.Next;
    var job := JobFor(x, w.voice.outbox[n], jobId, w.queue.core.clock);
    StoreStep(x, w, Queue.Enqueue(job));
    var w' := Next(x, w, Deliver(n, jobId));
    assert forall m :: m in w.delivered ==> w.voice.outbox[m].key in w'.queue.index;
  }

  lemma SchedulingStep(x: Settings, w: World, jobId: string, key: string)
    requires WorldSound(w) && Enabled(x, w, Schedule(jobId, key))
    ensures WorldSound(Next(x, w, Schedule(jobId, key)))
  {
    hide WorldSound, Queue.MemNext;
    var now := w.queue.core.clock;
    StoreStep(x, w, Queue.Enqueue(Async.NewJob(x.queue, jobId, Do.EXPIRE_LISTENER_SESSIONS, key, Async.Scheduled(now), now)));
  }

  lemma ServingStep(x: Settings, w: World, cmd: Command)
    requires WorldSound(w) && Enabled(x, w, Serve(cmd))
    ensures WorldSound(Next(x, w, Serve(cmd)))
  {
    hide Legal, Decide, Keyed, RoomsStaged, SessionsSound, SpeakingSound, RequestsAsked, FinishedAsked, Delivered,
         QueueSound, WorkSound, Write, Possible;
    DecisionsAreLegal(x.service, w.voice, cmd, w.queue.core.clock);
    CommandStep(w, Decide(x.service, w.voice, cmd, w.queue.core.clock), w.queue.core.clock);
  }

  lemma WorldStep(x: Settings, w: World, a: Step)
    requires WorldSound(w) && Enabled(x, w, a)
    ensures WorldSound(Next(x, w, a))
  {
    hide WorldSound;
    match a
    case Serve(cmd) => ServingStep(x, w, cmd);
    case Deliver(n, jobId) => DeliveringStep(x, w, n, jobId);
    case Schedule(jobId, key) => SchedulingStep(x, w, jobId, key);
    case Work(t, cmd) => WorkingStep(x, w, t, cmd);
    case Job(action) => hide Queue.MemNext; StoreStep(x, w, Queue.Other(action));
  }

  lemma {:induction false} AlwaysWorldSound(x: Settings, ws: seq<World>, steps: seq<Step>, i: nat)
    requires WorldRun(x, ws, steps) && i < |ws|
    ensures WorldSound(ws[i])
  {
    hide WorldSound, Enabled, Next, WorldRun, Start;
    WorldRunAt(x, ws, steps);
    if i == 0 {
      StartIsSound(ws[0]);
    } else {
      AlwaysWorldSound(x, ws, steps, i - 1);
      WorldStep(x, ws[i - 1], steps[i - 1]);
    }
  }

  lemma WorldRunAt(x: Settings, ws: seq<World>, steps: seq<Step>)
    requires WorldRun(x, ws, steps)
    ensures |ws| == |steps| + 1 && Start(ws[0])
    ensures forall i :: 0 <= i < |steps| ==> Enabled(x, ws[i], steps[i]) && ws[i + 1] == Next(x, ws[i], steps[i])
  {
    hide Enabled, Next, Start;
  }

  lemma StartIsSound(w: World)
    requires Start(w)
    ensures WorldSound(w)
  {
  }
}
