/**
 What the composed system guarantees, over the memory queue: finished rooms are emptied and reported, and both halves
 behave as they do alone.
 */
module WorldLaws {
  import opened Base
  import opened VoiceState
  import opened VoiceRuns
  import VoiceLaws
  import RoomLaws
  import Do = VoiceCommands
  import Async = AsyncTypes
  import Protocol = JobProtocol
  import Queue = MemoryQueue
  import Jobs = MemoryJobStore
  import Runner = JobRunner
  import AttemptAccounting
  import PresenceLaws
  import opened JobRegistry
  import opened EndToEnd

  // ----- The guarantees -----

  /** The history of the queue is never rewritten, and its jobs keep their identity. */
  predicate QueueGrows(c: Protocol.Core, c': Protocol.Core) {
    c.hist <= c'.hist && JobsKept(c.jobs, c'.jobs)
  }

  lemma QueueGrowsStep(x: Settings, w: World, a: Step)
    requires WorldSound(w) && Enabled(x, w, a)
    ensures QueueGrows(w.queue.core, Next(x, w, a).queue.core)
  {
    hide RoomLaws.Sound, RequestsAsked, FinishedAsked, WorkSound, Delivered, Apply, Handles, HandlerSucceeds, Possible, JobsKept;
    hide Runner.ReportIn;
    var now := w.queue.core.clock;
    match a
    case Deliver(n, jobId) =>
      QueueKeepsJobs(x.queue, w.queue.core,
                     Queue.MemAction(w.queue, Queue.Enqueue(JobFor(x, w.voice.outbox[n], jobId, now))));
    case Schedule(jobId, key) =>
      var job := Async.NewJob(x.queue, jobId, Do.EXPIRE_LISTENER_SESSIONS, key, Async.Scheduled(now), now);
      QueueKeepsJobs(x.queue, w.queue.core, Queue.MemAction(w.queue, Queue.Enqueue(job)));
    case Job(action) => QueueKeepsJobs(x.queue, w.queue.core, action);
    case _ => JobsKeptSame(w.queue.core.jobs);
  }

  lemma JobsKeptSame(jobs: Jobs.Jobs)
    ensures JobsKept(jobs, jobs)
  {
  }

  lemma {:induction false} QueueAlwaysGrows(x: Settings, ws: seq<World>, steps: seq<Step>, i: nat, j: nat)
    requires WorldRun(x, ws, steps) && i <= j < |ws|
    ensures QueueGrows(ws[i].queue.core, ws[j].queue.core)
    decreases j
  {
    hide WorldSound, Enabled, Next, WorldRun, Start, JobsKept;
    if i < j {
      WorldRunAt(x, ws, steps);
      QueueAlwaysGrows(x, ws, steps, i, j - 1);
      AlwaysWorldSound(x, ws, steps, j - 1);
      QueueGrowsStep(x, ws[j - 1], steps[j - 1]);
      JobsStayKept(ws[i].queue.core.jobs, ws[j - 1].queue.core.jobs, ws[j].queue.core.jobs);
    } else {
      JobsKeptSame(ws[i].queue.core.jobs);
    }
  }

  lemma JobsStayKept(a: Jobs.Jobs, b: Jobs.Jobs, c: Jobs.Jobs)
    requires JobsKept(a, b) && JobsKept(b, c)
    ensures JobsKept(a, c)
  {
  }

  /** Some worker reported success for a job filed under the key. */
  predicate ReportedDone(c: Protocol.Core, key: string) {
    exists k :: && 0 <= k < |c.hist| && c.hist[k].Done?
                && c.hist[k].jobId in c.jobs && c.jobs[c.hist[k].jobId].key == key
  }

  lemma ReportedDoneLasts(x: Settings, ws: seq<World>, steps: seq<Step>, i: nat, j: nat, key: string)
    requires WorldRun(x, ws, steps) && i <= j < |ws| && ReportedDone(ws[i].queue.core, key)
    ensures ReportedDone(ws[j].queue.core, key)
  {
    hide Enabled, Next;
    QueueAlwaysGrows(x, ws, steps, i, j);
    var c, c' := ws[i].queue.core, ws[j].queue.core;
    var k :| && 0 <= k < |c.hist| && c.hist[k].Done? && c.hist[k].jobId in c.jobs && c.jobs[c.hist[k].jobId].key == key;
    assert c'.hist[k] == c.hist[k];
  }

  lemma DoneMeansDone(w: World, roomId: string)
    requires WorldSound(w)
    ensures ReportedDone(w.queue.core, Do.CloseKey(roomId)) ==>
              RoomOver(w.voice, roomId) && ActiveIn(w.voice.sessions, roomId) == {}
    ensures ReportedDone(w.queue.core, Do.ReportKey(roomId)) ==> RoomOver(w.voice, roomId) && roomId in w.voice.reports
  {
    hide RoomLaws.Sound, RequestsAsked, FinishedAsked, Delivered, Do.CloseKey, Do.ReportKey, RoomOver, ActiveIn, CanModerate;
    var c := w.queue.core;
    forall k | 0 <= k < |c.hist| && c.hist[k].Done? && c.hist[k].jobId in c.jobs
      ensures c.jobs[c.hist[k].jobId].key == Do.CloseKey(roomId) ==>
                RoomOver(w.voice, roomId) && ActiveIn(w.voice.sessions, roomId) == {}
      ensures c.jobs[c.hist[k].jobId].key == Do.ReportKey(roomId) ==>
                RoomOver(w.voice, roomId) && roomId in w.voice.reports
    {
      var job := c.jobs[c.hist[k].jobId];
      assert JobAsked(w.voice, job) && WorkDone(w.voice, job);
      KeysAreDistinct(roomId, if job.payload.RoomJob? then job.payload.roomId else roomId, job.key);
      KeysAreDistinct(if job.payload.RoomJob? then job.payload.roomId else roomId, roomId, job.key);
    }
  }

  /**
   Room close: once a job under the room's close key has been reported complete, the room has no active listener
   then or at any later time, whatever else is served, retried, claimed again or reported late.
   */
  lemma ClosedRoomStaysEmpty(x: Settings, ws: seq<World>, steps: seq<Step>, i: nat, j: nat, roomId: string)
    requires WorldRun(x, ws, steps) && i <= j < |ws|
    requires ReportedDone(ws[i].queue.core, Do.CloseKey(roomId))
    ensures RoomOver(ws[j].voice, roomId) && ActiveIn(ws[j].voice.sessions, roomId) == {}
  {
    hide WorldSound, Enabled, Next, ReportedDone, Do.CloseKey, Do.ReportKey;
    ReportedDoneLasts(x, ws, steps, i, j, Do.CloseKey(roomId));
    AlwaysWorldSound(x, ws, steps, j);
    DoneMeansDone(ws[j], roomId);
  }

  /** Likewise its report exists from then on. */
  lemma ReportedRoomHasReport(x: Settings, ws: seq<World>, steps: seq<Step>, i: nat, j: nat, roomId: string)
    requires WorldRun(x, ws, steps) && i <= j < |ws|
    requires ReportedDone(ws[i].queue.core, Do.ReportKey(roomId))
    ensures RoomOver(ws[j].voice, roomId) && roomId in ws[j].voice.reports
  {
    hide WorldSound, Enabled, Next, ReportedDone, Do.CloseKey, Do.ReportKey;
    ReportedDoneLasts(x, ws, steps, i, j, Do.ReportKey(roomId));
    AlwaysWorldSound(x, ws, steps, j);
    DoneMeansDone(ws[j], roomId);
  }

  /**
   Deferred authority: whenever the handler of a report job runs, however late, the permission check passes; the
   job always names who finished the room, so the fallback to the owner is never taken.
   */
  lemma ReportJobAlwaysPermitted(x: Settings, ws: seq<World>, steps: seq<Step>, i: nat, t: nat, cmd: Command)
    requires WorldRun(x, ws, steps) && i < |ws|
    requires t in ws[i].queue.core.tickets && ws[i].queue.core.tickets[t].jobType == Do.GENERATE_ROOM_REPORT
    requires Handles(x.listenerTimeout, ws[i].voice, ws[i].queue.core.tickets[t], cmd, ws[i].queue.core.clock)
    ensures cmd.GenerateReport? && cmd.actor == RoomFields(ws[i].queue.core.tickets[t].payload).1 != ""
    ensures HandlerSucceeds(ws[i].voice, cmd, ws[i].queue.core.clock)
  {
    hide Enabled, Next, RoomLaws.Sound, RequestsAsked, FinishedAsked, Delivered, WorkSound, StatsOf, Do.ReportKey, Do.CloseKey;
    AlwaysWorldSound(x, ws, steps, i);
    var c := ws[i].queue.core;
    assert SameJob(c.tickets[t], c.jobs[c.tickets[t].id]) && JobAsked(ws[i].voice, c.jobs[c.tickets[t].id]);
  }

  /** Every finished room has asked for both its jobs, and every request that was delivered has a job under its key. */
  lemma FinishedRoomAsksForItsJobs(x: Settings, ws: seq<World>, steps: seq<Step>, i: nat, roomId: string)
    requires WorldRun(x, ws, steps) && i < |ws| && RoomOver(ws[i].voice, roomId)
    ensures HasRequest(ws[i].voice, Do.CloseKey(roomId)) && HasRequest(ws[i].voice, Do.ReportKey(roomId))
    ensures forall n :: n in ws[i].delivered ==>
              n < |ws[i].voice.outbox| && HasJob(ws[i].queue, ws[i].voice.outbox[n].key)
  {
    hide Enabled, Next, RoomLaws.Sound, RequestsAsked, WorkSound, QueueSound, Do.ReportKey, Do.CloseKey;
    AlwaysWorldSound(x, ws, steps, i);
  }

  predicate HasJob(q: Queue.Mem, key: string) {
    key in q.index && q.index[key] in q.core.jobs && q.core.jobs[q.index[key]].key == key
  }

  // ----- The two halves are runs of their own -----

  /** What the step asks of the queue's store. */
  function Asks(x: Settings, s: State, now: Time, a: Step): Queue.StoreAction
    requires a.Deliver? ==> a.request < |s.outbox|
  {
    match a
    case Deliver(n, jobId) => Queue.Enqueue(JobFor(x, s.outbox[n], jobId, now))
    case Schedule(jobId, key) =>
      Queue.Enqueue(Async.NewJob(x.queue, jobId, Do.EXPIRE_LISTENER_SESSIONS, key, Async.Scheduled(now), now))
    case Job(action) => Queue.Other(action)
    case _ => Queue.Other(Protocol.Idle)
  }

  lemma QueueHalf(x: Settings, w: World, a: Step)
    requires Enabled(x, w, a)
    ensures a.Deliver? ==> a.request < |w.voice.outbox|
    ensures Queue.Offered(x.queue, w.queue.core, Asks(x, w.voice, w.queue.core.clock, a))
    ensures Next(x, w, a).queue == Queue.MemNext(x.queue, w.queue, Asks(x, w.voice, w.queue.core.clock, a))
  {
    hide Apply, Handles, HandlerSucceeds, Possible;
  }

  /** The queue of a world behaves as the memory store alone: every law of its runs holds here. */
  lemma {:induction false} QueueOfWorld(x: Settings, ws: seq<World>, steps: seq<Step>, i: nat)
      returns (ms: seq<Queue.Mem>, sas: seq<Queue.StoreAction>)
    requires WorldRun(x, ws, steps) && i < |ws|
    ensures Queue.MemRun(x.queue, ms, sas) && |ms| == i + 1 && ms[i] == ws[i].queue
  {
    hide Enabled, Next, Queue.Offered, Queue.MemNext;
    if i == 0 {
      ms, sas := [ws[0].queue], [];
    } else {
      ms, sas := QueueOfWorld(x, ws, steps, i - 1);
      QueueHalf(x, ws[i - 1], steps[i - 1]);
      var sa := Asks(x, ws[i - 1].voice, ws[i - 1].queue.core.clock, steps[i - 1]);
      Queue.MemRunExtends(x.queue, ms, sas, sa);
      ms, sas := ms + [Queue.MemNext(x.queue, ms[i - 1], sa)], sas + [sa];
    }
  }

  lemma RunExtends(cfg: ServiceConfig, ss: seq<State>, cmds: seq<Command>, times: seq<Time>, cmd: Command, now: Time)
    requires Run(cfg, ss, cmds, times) && Possible(ss[|cmds|], cmd)
    requires forall i :: 0 <= i < |times| ==> times[i] <= now
    ensures Run(cfg, ss + [Apply(cfg, ss[|cmds|], cmd, now)], cmds + [cmd], times + [now])
  {
    hide Possible, Apply, Empty;
  }

  predicate ByNow(times: seq<Time>, now: Time) {
    forall i :: 0 <= i < |times| ==> times[i] <= now
  }

  /** The service command a step runs, if it runs one. */
  function CommandOf(a: Step): Option<Command> {
    match a
    case Serve(cmd) => Some(cmd)
    case Work(_, cmd) => Some(cmd)
    case _ => None
  }

  lemma VoiceHalf(x: Settings, w: World, a: Step)
    requires Enabled(x, w, a)
    ensures w.queue.core.clock <= Next(x, w, a).queue.core.clock
    ensures var ran := CommandOf(a);
            if ran.Some? then
              && Possible(w.voice, ran.value)
              && Next(x, w, a).voice == Apply(x.service, w.voice, ran.value, w.queue.core.clock)
            else Next(x, w, a).voice == w.voice
  {
    hide Apply, Handles, HandlerSucceeds, Possible, Runner.ReportIn;
  }

  /** The service of a world behaves as the service alone: every law of its runs holds here. */
  lemma {:induction false} VoiceOfWorld(x: Settings, ws: seq<World>, steps: seq<Step>, i: nat)
      returns (ss: seq<State>, cmds: seq<Command>, times: seq<Time>)
    requires WorldRun(x, ws, steps) && i < |ws|
    ensures Run(x.service, ss, cmds, times) && ss[|cmds|] == ws[i].voice && ByNow(times, ws[i].queue.core.clock)
  {
    hide Enabled, Next, Possible, Apply, Empty;
    if i == 0 {
      ss, cmds, times := [ws[0].voice], [], [];
    } else {
      ss, cmds, times := VoiceOfWorld(x, ws, steps, i - 1);
      VoiceHalf(x, ws[i - 1], steps[i - 1]);
      var a := steps[i - 1];
      if a.Serve? || a.Work? {
        var cmd := if a.Serve? then a.cmd else a.handlerCmd;
        var now := ws[i - 1].queue.core.clock;
        RunExtends(x.service, ss, cmds, times, cmd, now);
        ss, cmds, times := ss + [Apply(x.service, ss[|cmds|], cmd, now)], cmds + [cmd], times + [now];
      }
    }
  }

  /** So a closed room counts no listener, whether the counts come from the presence sets or from the store. */
  lemma ClosedRoomCountsNobody(x: Settings, ws: seq<World>, steps: seq<Step>, i: nat, j: nat, roomId: string)
    requires WorldRun(x, ws, steps) && i <= j < |ws|
    requires ReportedDone(ws[i].queue.core, Do.CloseKey(roomId))
    ensures PresenceLaws.ActiveCounts(ws[j].voice, roomId).0 == 0
  {
    hide Enabled, Next, WorldRun, ReportedDone, Do.CloseKey, ActiveIn, Run;
    ClosedRoomStaysEmpty(x, ws, steps, i, j, roomId);
    var ss, cmds, times := VoiceOfWorld(x, ws, steps, j);
    VoiceLaws.RunShape(x.service, ss, cmds, times);
    PresenceLaws.CountsDoNotDependOnPresence(x.service, ss, cmds, times, |cmds|, roomId);
  }

  /** And a job is tried no more often than its maximum, but for the expired leases taken over. */
  lemma AttemptsOfWorld(x: Settings, ws: seq<World>, steps: seq<Step>, i: nat, jobId: string)
    requires WorldRun(x, ws, steps) && i < |ws| && jobId in ws[i].queue.core.jobs
    ensures var c := ws[i].queue.core;
            && c.jobs[jobId].attempts == Protocol.Claims(c.hist, jobId)
            && c.jobs[jobId].attempts <= c.jobs[jobId].maxAttempts + Protocol.Reclaims(c.hist, jobId)
  {
    hide Enabled, Next, WorldRun, Queue.MemRun, Protocol.Run;
    var ms, sas := QueueOfWorld(x, ws, steps, i);
    MemRunLength(x.queue, ms, sas);
    Queue.MemRunIsRun(x.queue, ms, sas);
    AttemptAccounting.AttemptsAreAccountedFor(x.queue, Queue.Cores(ms), Queue.Actions(ms, sas), i, jobId);
  }

  lemma MemRunLength(cfg: Async.Config, ms: seq<Queue.Mem>, sas: seq<Queue.StoreAction>)
    requires Queue.MemRun(cfg, ms, sas)
    ensures |ms| == |sas| + 1
  {
  }
}
