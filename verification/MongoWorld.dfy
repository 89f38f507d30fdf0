/**
 The composed system over the MongoDB queue, the one the API and worker processes share. Its runs are runs of the
 system over the memory queue, so every guarantee proved there holds here.
 */
module MongoWorld {
  import opened Base
  import opened VoiceTypes
  import opened VoiceState
  import opened VoiceRuns
  import opened VoiceLaws
  import RoomLaws
  import opened ExpiryLaws
  import opened JobRegistry
  import opened EndToEnd
  import opened WorldExpiry
  import opened WorldLaws
  import Do = VoiceCommands
  import Async = AsyncTypes
  import Protocol = JobProtocol
  import Queue = MemoryQueue
  import Mongo = MongoQueue
  import Docs = MongoJobStore
  import LeaseProtocol
  import PresenceLaws

  /** The service state, the job documents with clock, tickets and history, the requests delivered and tickets handled. */
  datatype Shared = Shared(voice: State, core: Protocol.Core, delivered: set<nat>, handled: set<nat>)

  /** The same with an index nobody looks at, for the steps that do not depend on the store. */
  function Seen(w: Shared): World {
    World(w.voice, Queue.Mem(w.core, map[]), w.delivered, w.handled)
  }

  /** As over the memory queue, except that a claim takes a first match of the sorted filter. */
  ghost predicate SharedEnabled(x: Settings, w: Shared, a: Step) {
    match a
    case Job(action) =>
      && Mongo.MongoOffered(x.queue, w.core, Queue.Other(action))
      && (action.Report? && action.outcome.Succeeded? ==> action.ticket in w.handled)
    case _ => Enabled(x, Seen(w), a)
  }

  ghost function SharedNext(x: Settings, w: Shared, a: Step): Shared
    requires SharedEnabled(x, w, a)
  {
    var now := w.core.clock;
    match a
    case Serve(cmd) => w.(voice := Apply(x.service, w.voice, cmd, now))
    case Deliver(n, _) =>
      w.(core := Mongo.MongoNext(x.queue, w.core, Asks(x, w.voice, now, a)), delivered := w.delivered + {n})
    case Schedule(_, _) => w.(core := Mongo.MongoNext(x.queue, w.core, Asks(x, w.voice, now, a)))
    case Work(t, cmd) =>
      w.(voice := Apply(x.service, w.voice, cmd, now),
         handled := if HandlerSucceeds(w.voice, cmd, now) then w.handled + {t} else w.handled)
    case Job(action) => w.(core := Mongo.MongoNext(x.queue, w.core, Queue.Other(action)))
  }

  ghost predicate SharedRun(x: Settings, ws: seq<Shared>, steps: seq<Step>) {
    && Async.Normalised(x.queue)
    && |ws| == |steps| + 1
    && Start(Seen(ws[0]))
    && forall i :: 0 <= i < |steps| ==>
         SharedEnabled(x, ws[i], steps[i]) && ws[i + 1] == SharedNext(x, ws[i], steps[i])
  }

  lemma SharedVoiceHalf(x: Settings, w: Shared, a: Step)
    requires SharedEnabled(x, w, a)
    ensures w.core.clock <= SharedNext(x, w, a).core.clock
    ensures var ran := CommandOf(a);
            if ran.Some? then
              && Possible(w.voice, ran.value)
              && SharedNext(x, w, a).voice == Apply(x.service, w.voice, ran.value, w.core.clock)
            else SharedNext(x, w, a).voice == w.voice
  {
    hide Apply, Handles, HandlerSucceeds, Possible, Docs.FirstMatch;
  }

  // ----- Every key is asked for and delivered once -----

  predicate DistinctKeys(outbox: seq<JobRequest>) {
    forall m, n :: 0 <= m < n < |outbox| ==> outbox[m].key != outbox[n].key
  }

  /** A key in the index is the scheduler's or that of a delivered request. */
  predicate KeysDelivered(w: World) {
    forall k :: k in w.queue.index ==> "scheduler:" <= k || DeliveredUnder(w.voice.outbox, w.delivered, k)
  }

  predicate DeliveredUnder(outbox: seq<JobRequest>, delivered: set<nat>, key: string) {
    exists n :: n in delivered && n < |outbox| && outbox[n].key == key
  }

  ghost predicate AskedOnce(w: World) {
    DistinctKeys(w.voice.outbox) && KeysDelivered(w)
  }

  /** Only finishing a room asks for jobs, and a room finishes once. */
  lemma DistinctStep(s: State, change: Change, now: Time)
    requires RoomLaws.Sound(s) && Legal(s, change, now) && RequestsAsked(s) && DistinctKeys(s.outbox)
    ensures DistinctKeys(Write(s, change).outbox)
  {
    hide RoomLaws.Sound, LegalRecording, LegalSpeaker, LegalListener, LegalRequest, LegalBlock, LegalReport,
         Do.CloseKey, Do.ReportKey;
    if change.EndListeners? {
      EndSessionsFrame(s, change.ended);
    }
    if change.PutRoom? && change.jobs != [] {
      var roomId := change.room.id;
      assert change.jobs == Do.FinishJobs(roomId, change.event.actorUserId) && !RoomOver(s, roomId);
      forall n | 0 <= n < |s.outbox|
        ensures s.outbox[n].key != Do.CloseKey(roomId) && s.outbox[n].key != Do.ReportKey(roomId)
      {
        assert RequestAsked(s, s.outbox[n]);
        KeysAreDistinct(s.outbox[n].roomId, roomId, "");
        KeysAreDistinct(roomId, s.outbox[n].roomId, "");
      }
      KeysAreDistinct(roomId, roomId, "");
    }
  }

  lemma OutboxOnlyGrows(s: State, change: Change)
    ensures s.outbox <= Write(s, change).outbox
  {
    if change.EndListeners? {
      EndSessionsFrame(s, change.ended);
    }
  }

  lemma AskedOnceCommand(x: Settings, w: World, cmd: Command)
    requires WorldSound(w) && AskedOnce(w) && Possible(w.voice, cmd)
    ensures DistinctKeys(Apply(x.service, w.voice, cmd, w.queue.core.clock).outbox)
    ensures w.voice.outbox <= Apply(x.service, w.voice, cmd, w.queue.core.clock).outbox
  {
    hide Keyed, RoomsStaged, SessionsSound, SpeakingSound, Legal, Decide, Possible, Write, QueueSound, WorkSound,
         FinishedAsked, RequestsAsked, Delivered, DistinctKeys;
    var now := w.queue.core.clock;
    DecisionsAreLegal(x.service, w.voice, cmd, now);
    DistinctStep(w.voice, Decide(x.service, w.voice, cmd, now), now);
    OutboxOnlyGrows(w.voice, Decide(x.service, w.voice, cmd, now));
  }

  lemma AskedOnceStep(x: Settings, w: World, a: Step)
    requires WorldSound(w) && AskedOnce(w) && Enabled(x, w, a)
    ensures AskedOnce(Next(x, w, a))
  {
    hide WorldSound, Apply, Possible, Handles, HandlerSucceeds, DistinctKeys, Protocol.Next, Protocol.Enabled;
    if a.Serve? || a.Work? {
      AskedOnceCommand(x, w, if a.Serve? then a.cmd else a.handlerCmd);
    }
    var w' := Next(x, w, a);
    forall k | k in w'.queue.index
      ensures "scheduler:" <= k || DeliveredUnder(w'.voice.outbox, w'.delivered, k)
    {
      if k in w.queue.index && !("scheduler:" <= k) {
        var n :| n in w.delivered && n < |w.voice.outbox| && w.voice.outbox[n].key == k;
        assert n in w'.delivered && w'.voice.outbox[n].key == k;
      } else if a.Deliver? {
        assert a.request in w'.delivered;
      }
    }
  }

  lemma {:induction false} AlwaysAskedOnce(x: Settings, ws: seq<World>, steps: seq<Step>, i: nat)
    requires WorldRun(x, ws, steps) && i < |ws|
    ensures AskedOnce(ws[i])
  {
    hide WorldSound, Enabled, Next, WorldRun, AskedOnce, Start;
    WorldRunAt(x, ws, steps);
    if i == 0 {
      NothingAskedYet(ws[0]);
    } else {
      AlwaysAskedOnce(x, ws, steps, i - 1);
      AlwaysWorldSound(x, ws, steps, i - 1);
      AskedOnceStep(x, ws[i - 1], steps[i - 1]);
    }
  }

  lemma NothingAskedYet(w: World)
    requires Start(w)
    ensures AskedOnce(w)
  {
  }

  // ----- The refinement -----

  /** The memory world that stands for a shared one: the same but for the index, which inverts the key field. */
  predicate Stands(m: World, w: Shared) {
    && m.voice == w.voice && m.delivered == w.delivered && m.handled == w.handled
    && Mongo.Represents(m.queue, w.core)
  }

  /** A scheduled job whose key is spent is ignored by MongoDB; its answer is to do nothing. */
  predicate Ignored(x: Settings, w: Shared, a: Step) {
    a.Schedule? && Mongo.EnqueuesSpentKey(w.core, Asks(x, w.voice, w.core.clock, a))
  }

  function StepAnswer(x: Settings, w: Shared, a: Step): Step {
    if Ignored(x, w, a) then Job(Protocol.Idle) else a
  }

  lemma DeliveryIsFresh(x: Settings, m: World, w: Shared, a: Step)
    requires Stands(m, w) && WorldSound(m) && AskedOnce(m) && a.Deliver? && SharedEnabled(x, w, a)
    ensures !Mongo.EnqueuesSpentKey(w.core, Asks(x, w.voice, w.core.clock, a))
    ensures !Docs.DuplicateKey(w.core.jobs, Asks(x, w.voice, w.core.clock, a).job)
  {
    hide RoomLaws.Sound, FinishedAsked, QueueSound, WorkSound, Do.CloseKey, Do.ReportKey, RoomOver, CanModerate;
    var request := w.voice.outbox[a.request];
    assert RequestAsked(m.voice, request);
    KeysAreDistinct(request.roomId, request.roomId, request.key);
    assert request.key !in m.queue.index;
  }

  lemma SharedStep(x: Settings, m: World, w: Shared, a: Step)
    requires Stands(m, w) && WorldSound(m) && AskedOnce(m) && LeaseProtocol.AllLocked(w.core.jobs)
    requires SharedEnabled(x, w, a)
    ensures Enabled(x, m, StepAnswer(x, w, a))
    ensures Stands(Next(x, m, StepAnswer(x, w, a)), SharedNext(x, w, a))
    ensures LeaseProtocol.AllLocked(SharedNext(x, w, a).core.jobs)
  {
    hide WorldSound, AskedOnce, Apply, Possible, Handles, HandlerSucceeds, Mongo.Represents, Mongo.EnqueuesSpentKey,
         Mongo.MongoNext, Mongo.MongoOffered, Queue.MemNext, LeaseProtocol.AllLocked, Protocol.Enabled, Queue.Offered;
    Mongo.RepresentsCore(m.queue, w.core);
    if a.Deliver? || a.Schedule? || a.Job? {
      var sa := Asks(x, w.voice, w.core.clock, a);
      OfferedToMongo(x, w, a);
      if a.Deliver? {
        DeliveryIsFresh(x, m, w, a);
      }
      Mongo.RefinementStep(x.queue, m.queue, w.core, sa);
      Mongo.MongoStepIsStep(x.queue, w.core, sa);
      OnlyEnqueuesSpend(w.core, sa);
      EnabledOverMemory(x, m, w, a);
    }
  }

  lemma OfferedToMongo(x: Settings, w: Shared, a: Step)
    requires SharedEnabled(x, w, a) && (a.Deliver? || a.Schedule? || a.Job?)
    ensures Mongo.MongoOffered(x.queue, w.core, Asks(x, w.voice, w.core.clock, a))
  {
    hide Protocol.Enabled, Docs.FirstMatch;
  }

  lemma OnlyEnqueuesSpend(c: Protocol.Core, sa: Queue.StoreAction)
    ensures Mongo.EnqueuesSpentKey(c, sa) ==> sa.Enqueue?
  {
  }

  lemma EnabledOverMemory(x: Settings, m: World, w: Shared, a: Step)
    requires Stands(m, w) && LeaseProtocol.AllLocked(w.core.jobs) && SharedEnabled(x, w, a)
    ensures Enabled(x, m, StepAnswer(x, w, a))
  {
    hide Mongo.Represents, Apply, Possible, Handles;
    Mongo.RepresentsCore(m.queue, w.core);
    if a.Job? {
      Mongo.MongoStepIsStep(x.queue, w.core, Queue.Other(a.a));
    }
  }

  lemma SharedRunAt(x: Settings, ws: seq<Shared>, steps: seq<Step>)
    requires SharedRun(x, ws, steps)
    ensures |ws| == |steps| + 1 && Async.Normalised(x.queue) && Start(Seen(ws[0]))
    ensures forall i :: 0 <= i < |steps| ==>
              SharedEnabled(x, ws[i], steps[i]) && ws[i + 1] == SharedNext(x, ws[i], steps[i])
  {
    hide SharedEnabled, SharedNext, Start;
  }

  lemma StartStands(x: Settings, w: Shared)
    requires Async.Normalised(x.queue) && Start(Seen(w))
    ensures WorldRun(x, [Seen(w)], []) && Stands(Seen(w), w) && LeaseProtocol.AllLocked(w.core.jobs)
  {
  }

  lemma WorldRunExtends(x: Settings, ms: seq<World>, steps: seq<Step>, a: Step)
    requires WorldRun(x, ms, steps) && Enabled(x, ms[|steps|], a)
    ensures WorldRun(x, ms + [Next(x, ms[|steps|], a)], steps + [a])
  {
    hide Enabled, Next, Start;
  }

  /**
   Every run over the shared MongoDB queue is, state for state, a run over the memory queue. The steps are the same,
   except that a scheduled job whose key is spent is left out.
   */
  lemma {:induction false} SharedRunIsWorldRun(x: Settings, ws: seq<Shared>, steps: seq<Step>, i: nat)
      returns (ms: seq<World>, answers: seq<Step>)
    requires SharedRun(x, ws, steps) && i < |ws|
    ensures WorldRun(x, ms, answers) && |ms| == i + 1 && |answers| == i && |ws| == |steps| + 1
    ensures forall k :: 0 <= k <= i ==> Stands(ms[k], ws[k])
    ensures forall k :: 0 <= k < i ==> answers[k] == StepAnswer(x, ws[k], steps[k])
    ensures LeaseProtocol.AllLocked(ws[i].core.jobs)
  {
    hide SharedRun, SharedEnabled, SharedNext, WorldRun, Enabled, Next, Start, Stands, StepAnswer, WorldSound, AskedOnce,
         LeaseProtocol.AllLocked;
    SharedRunAt(x, ws, steps);
    if i == 0 {
      ms, answers := [Seen(ws[0])], [];
      StartStands(x, ws[0]);
    } else {
      ms, answers := SharedRunIsWorldRun(x, ws, steps, i - 1);
      AlwaysWorldSound(x, ms, answers, i - 1);
      AlwaysAskedOnce(x, ms, answers, i - 1);
      var a := StepAnswer(x, ws[i - 1], steps[i - 1]);
      SharedStep(x, ms[i - 1], ws[i - 1], steps[i - 1]);
      WorldRunExtends(x, ms, answers, a);
      ms, answers := ms + [Next(x, ms[i - 1], a)], answers + [a];
    }
  }

  lemma SharedKeyed(x: Settings, ws: seq<Shared>, steps: seq<Step>, i: nat)
    requires SharedRun(x, ws, steps) && i < |ws|
    ensures Keyed(ws[i].voice)
  {
    hide SharedRun, WorldRun, Stands, Keyed, RoomsStaged, SessionsSound, SpeakingSound, QueueSound, WorkSound, Delivered,
         RequestsAsked, FinishedAsked;
    var ms, answers := SharedRunIsWorldRun(x, ws, steps, i);
    StandsFor(ms[i], ws[i]);
    AlwaysWorldSound(x, ms, answers, i);
  }

  // ----- The guarantees -----

  lemma StandsFor(m: World, w: Shared)
    requires Stands(m, w)
    ensures m.voice == w.voice && m.queue.core == w.core && m.delivered == w.delivered && m.handled == w.handled
  {
  }

  /**
   Room close: once a job under the room's close key has been reported complete, the room has no active listener
   then or at any later time, whatever else is served, retried, claimed again or reported late.
   */
  lemma RoomClosedForGood(x: Settings, ws: seq<Shared>, steps: seq<Step>, i: nat, j: nat, roomId: string)
    requires SharedRun(x, ws, steps) && i <= j < |ws|
    requires ReportedDone(ws[i].core, Do.CloseKey(roomId))
    ensures RoomOver(ws[j].voice, roomId) && ActiveIn(ws[j].voice.sessions, roomId) == {}
    ensures PresenceLaws.ActiveCounts(ws[j].voice, roomId).0 == 0
  {
    hide SharedRun, WorldRun, Stands, ReportedDone, Do.CloseKey;
    var ms, answers := SharedRunIsWorldRun(x, ws, steps, j);
    StandsFor(ms[i], ws[i]);
    StandsFor(ms[j], ws[j]);
    ClosedRoomStaysEmpty(x, ms, answers, i, j, roomId);
    ClosedRoomCountsNobody(x, ms, answers, i, j, roomId);
  }

  /** Likewise its report exists from then on. */
  lemma RoomReportedForGood(x: Settings, ws: seq<Shared>, steps: seq<Step>, i: nat, j: nat, roomId: string)
    requires SharedRun(x, ws, steps) && i <= j < |ws|
    requires ReportedDone(ws[i].core, Do.ReportKey(roomId))
    ensures RoomOver(ws[j].voice, roomId) && roomId in ws[j].voice.reports
  {
    hide SharedRun, WorldRun, Stands, ReportedDone, Do.ReportKey;
    var ms, answers := SharedRunIsWorldRun(x, ws, steps, j);
    StandsFor(ms[i], ws[i]);
    StandsFor(ms[j], ws[j]);
    ReportedRoomHasReport(x, ms, answers, i, j, roomId);
  }

  /** Deferred authority: whenever the handler of a report job runs, however late, the permission check passes. */
  lemma ReportHandlerPermitted(x: Settings, ws: seq<Shared>, steps: seq<Step>, i: nat, t: nat, cmd: Command)
    requires SharedRun(x, ws, steps) && i < |ws|
    requires t in ws[i].core.tickets && ws[i].core.tickets[t].jobType == Do.GENERATE_ROOM_REPORT
    requires Handles(x.listenerTimeout, ws[i].voice, ws[i].core.tickets[t], cmd, ws[i].core.clock)
    ensures cmd.GenerateReport? && cmd.actor == RoomFields(ws[i].core.tickets[t].payload).1 != ""
    ensures HandlerSucceeds(ws[i].voice, cmd, ws[i].core.clock)
  {
    hide SharedRun, WorldRun, Stands, Handles, HandlerSucceeds;
    var ms, answers := SharedRunIsWorldRun(x, ws, steps, i);
    StandsFor(ms[i], ws[i]);
    ReportJobAlwaysPermitted(x, ms, answers, i, t, cmd);
  }

  predicate HasDocument(core: Protocol.Core, key: string) {
    exists id :: id in core.jobs && core.jobs[id].key == key
  }

  /** Every finished room has asked for both its jobs, and every delivered request has exactly one document under its key. */
  lemma FinishedRoomHasItsJobs(x: Settings, ws: seq<Shared>, steps: seq<Step>, i: nat, roomId: string)
    requires SharedRun(x, ws, steps) && i < |ws| && RoomOver(ws[i].voice, roomId)
    ensures HasRequest(ws[i].voice, Do.CloseKey(roomId)) && HasRequest(ws[i].voice, Do.ReportKey(roomId))
    ensures forall n :: n in ws[i].delivered ==>
              n < |ws[i].voice.outbox| && HasDocument(ws[i].core, ws[i].voice.outbox[n].key)
    ensures Docs.UniqueKeys(ws[i].core.jobs)
  {
    hide SharedRun, WorldRun, HasRequest, RoomOver, Do.CloseKey, Do.ReportKey;
    var ms, answers := SharedRunIsWorldRun(x, ws, steps, i);
    StandsFor(ms[i], ws[i]);
    FinishedRoomAsksForItsJobs(x, ms, answers, i, roomId);
    assert Mongo.Represents(ms[i].queue, ws[i].core);
  }

  /** A job is tried no more often than its maximum, but for the expired leases taken over. */
  lemma AttemptsOfSharedQueue(x: Settings, ws: seq<Shared>, steps: seq<Step>, i: nat, jobId: string)
    requires SharedRun(x, ws, steps) && i < |ws| && jobId in ws[i].core.jobs
    ensures var c := ws[i].core;
            && c.jobs[jobId].attempts == Protocol.Claims(c.hist, jobId)
            && c.jobs[jobId].attempts <= c.jobs[jobId].maxAttempts + Protocol.Reclaims(c.hist, jobId)
  {
    hide SharedRun, WorldRun, Stands;
    var ms, answers := SharedRunIsWorldRun(x, ws, steps, i);
    StandsFor(ms[i], ws[i]);
    AttemptsOfWorld(x, ms, answers, i, jobId);
  }

  /** In every reachable state whoever was expired had been silent for longer than the listener timeout. */
  lemma ExpiredListenersWereSilent(x: Settings, ws: seq<Shared>, steps: seq<Step>, i: nat)
    requires SharedRun(x, ws, steps) && i < |ws|
    ensures ExpiredWereSilent(ws[i].voice, x.listenerTimeout)
  {
    hide SharedRun, WorldRun, Stands, ExpiredWereSilent;
    var ms, answers := SharedRunIsWorldRun(x, ws, steps, i);
    StandsFor(ms[i], ws[i]);
    ExpiredHadBeenSilent(x, ms, answers, i);
  }

  function Worlds(ws: seq<Shared>): (seen: seq<World>)
    ensures |seen| == |ws| && forall k :: 0 <= k < |ws| ==> seen[k] == Seen(ws[k])
  {
    seq(|ws|, k requires 0 <= k < |ws| => Seen(ws[k]))
  }

  /** The laws of draining hold of every run, with expiry jobs at any instants and any commands in between. */
  lemma SharedHistory(x: Settings, ws: seq<Shared>, steps: seq<Step>)
    requires SharedRun(x, ws, steps) && x.listenerTimeout >= 0
    ensures History(MomentsOf(Worlds(ws)), Expiries(steps), x.listenerTimeout, EXPIRY_BATCH)
  {
    hide SharedRun, WorldRun, Stands, History, Ignored;
    SharedRunAt(x, ws, steps);
    var ms, answers := SharedRunIsWorldRun(x, ws, steps, |steps|);
    WorldHistory(x, ms, answers);
    forall k | 0 <= k < |ws|
      ensures MomentsOf(ms)[k] == MomentsOf(Worlds(ws))[k]
    {
      StandsFor(ms[k], ws[k]);
    }
    forall k | 0 <= k < |steps|
      ensures Expiries(answers)[k] == Expiries(steps)[k]
    {
      OnlyScheduledIgnored(x, ws[k], steps[k]);
    }
    assert MomentsOf(ms) == MomentsOf(Worlds(ws)) && Expiries(answers) == Expiries(steps);
  }

  lemma OnlyScheduledIgnored(x: Settings, w: Shared, a: Step)
    requires a.Deliver? ==> a.request < |w.voice.outbox|
    ensures Ignored(x, w, a) ==> a.Schedule?
  {
  }

  /** Overdue listeners are cleared once the expiry handlers had room for them and all who became overdue since. */
  lemma OverdueListenersCleared(x: Settings, ws: seq<Shared>, steps: seq<Step>, i: nat, j: nat)
    requires SharedRun(x, ws, steps) && x.listenerTimeout >= 0 && i <= j <= |steps| && |ws| == |steps| + 1
    requires Runs(Expiries(steps), i, j) * EXPIRY_BATCH
          >= |Overdue(MomentOf(Seen(ws[i])), x.listenerTimeout)| + Arrived(MomentsOf(Worlds(ws)), x.listenerTimeout, i, j)
    ensures Stale(ws[j].voice.sessions, ws[i].core.clock - x.listenerTimeout) == {}
  {
    hide SharedRun, History, Stale, Runs, Arrived;
    SharedHistory(x, ws, steps);
    OverdueAreCleared(MomentsOf(Worlds(ws)), Expiries(steps), x.listenerTimeout, EXPIRY_BATCH, i, j);
  }
}
