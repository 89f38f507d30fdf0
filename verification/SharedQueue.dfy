/** The shared queue of the composed system under the law of waiting: a delivered job is claimed by its turn. */
module SharedQueue {
  import opened Base
  import opened NoStarvation
  import opened EndToEnd
  import WorldLaws
  import opened MongoWorld
  import Async = AsyncTypes
  import Docs = MongoJobStore
  import Mongo = MongoQueue
  import Protocol = JobProtocol
  import Queue = MemoryQueue
  import JobRegistry
  import VoiceRuns
  import VoiceState

  function CoresOf(ws: seq<Shared>): (cs: seq<Protocol.Core>)
    ensures |cs| == |ws| && forall k :: 0 <= k < |ws| ==> cs[k] == ws[k].core
  {
    seq(|ws|, k requires 0 <= k < |ws| => ws[k].core)
  }

  /** What each step of a run asks of the store. */
  ghost function StoreActions(x: Settings, ws: seq<Shared>, steps: seq<Step>): (sas: seq<Queue.StoreAction>)
    requires SharedRun(x, ws, steps)
    ensures |sas| == |steps|
  {
    seq(|steps|, k requires 0 <= k < |steps| => AskedBy(x, ws[k], steps[k]))
  }

  ghost function AskedBy(x: Settings, w: Shared, a: Step): Queue.StoreAction {
    if a.Deliver? && a.request >= |w.voice.outbox| then Queue.Other(Protocol.Idle)
    else WorldLaws.Asks(x, w.voice, w.core.clock, a)
  }

  lemma SharedStepIsMongo(x: Settings, w: Shared, a: Step)
    requires SharedEnabled(x, w, a)
    ensures Mongo.MongoOffered(x.queue, w.core, AskedBy(x, w, a))
    ensures SharedNext(x, w, a).core == Mongo.MongoNext(x.queue, w.core, AskedBy(x, w, a))
  {
    hide VoiceRuns.Apply, VoiceRuns.Possible, JobRegistry.Handles, JobRegistry.HandlerSucceeds, Docs.FirstMatch, Docs.DuplicateKey;
  }

  /** The queue half of a shared run is a run of the MongoDB queue, so every law of those holds of it. */
  lemma SharedQueueIsMongoRun(x: Settings, ws: seq<Shared>, steps: seq<Step>)
    requires SharedRun(x, ws, steps)
    ensures Mongo.MongoRun(x.queue, CoresOf(ws), StoreActions(x, ws, steps))
  {
    hide SharedEnabled, SharedNext, Mongo.MongoOffered, Mongo.MongoNext, AskedBy, Start;
    StartOfQueue(ws[0]);
    forall k | 0 <= k < |steps|
      ensures Mongo.MongoOffered(x.queue, ws[k].core, AskedBy(x, ws[k], steps[k]))
      ensures ws[k + 1].core == Mongo.MongoNext(x.queue, ws[k].core, AskedBy(x, ws[k], steps[k]))
    {
      SharedStepIsMongo(x, ws[k], steps[k]);
    }
  }

  lemma StartOfQueue(w: Shared)
    requires Start(Seen(w))
    ensures Protocol.Init(w.core)
  {
  }

  /** The workers report in time. */
  ghost predicate TimelyShared(x: Settings, ws: seq<Shared>, steps: seq<Step>)
    requires SharedRun(x, ws, steps)
  {
    Mongo.TimelyMongoRun(x.queue, CoresOf(ws), StoreActions(x, ws, steps))
  }

  /** A delivered request is filed as a new job, pending and due at once. */
  lemma DeliveryFilesJob(x: Settings, ws: seq<Shared>, steps: seq<Step>, n: nat)
    requires SharedRun(x, ws, steps) && n < |steps| && |ws| == |steps| + 1 && steps[n].Deliver?
    ensures steps[n].request < |ws[n].voice.outbox| && ws[n + 1].core.clock == ws[n].core.clock
    ensures var job := JobFor(x, ws[n].voice.outbox[steps[n].request], steps[n].jobId, ws[n].core.clock);
            ws[n + 1].core.jobs == ws[n].core.jobs[steps[n].jobId := job]
  {
    var ms, answers := SharedRunIsWorldRun(x, ws, steps, n);
    AlwaysWorldSound(x, ms, answers, n);
    AlwaysAskedOnce(x, ms, answers, n);
    assert SharedEnabled(x, ws[n], steps[n]) && ws[n + 1] == SharedNext(x, ws[n], steps[n]);
    hide SharedRun, WorldRun, WorldSound, AskedOnce, Stands, Docs.DuplicateKey;
    DeliveryIsFresh(x, ms[n], ws[n], steps[n]);
  }

  lemma ReadyWhenFiled(x: Settings, r: VoiceState.JobRequest, jobId: string, now: Time)
    ensures Async.ReadyToClaim(JobFor(x, r, jobId, now), now)
    ensures JobFor(x, r, jobId, now).runAfter == now == JobFor(x, r, jobId, now).createdAt
  {
  }

  /** The waiting jobs that are not later than the one named. */
  function Line(c: Protocol.Core, id: string): set<string> {
    if id in c.jobs then Ahead(c.jobs, id) else {}
  }

  /**
   A delivered job, the close of a finished room for one, is claimed within one claim, plus one for each waiting job
   not later than it, plus one for each expired lease taken over meanwhile, if the workers report in time, every retry
   waits and nothing else is enqueued at the very instant of the delivery.
   */
  lemma DeliveredJobIsClaimed(x: Settings, ws: seq<Shared>, steps: seq<Step>, n: nat, stop: nat)
    requires SharedRun(x, ws, steps) && TimelyShared(x, ws, steps) && RetriesWait(x.queue)
    requires n < stop <= |steps| && |ws| == |steps| + 1 && steps[n].Deliver?
    requires forall i :: n < i < stop && (steps[i].Deliver? || steps[i].Schedule?) ==> ws[i].core.clock != ws[n].core.clock
    requires ClaimsIn(StoreActions(x, ws, steps), n + 1, stop)
          >= 1 + |Line(ws[n + 1].core, steps[n].jobId)|
             + TakeoversIn(CoresOf(ws), StoreActions(x, ws, steps), n + 1, stop)
    ensures exists at :: n < at < stop && steps[at].Job? && steps[at].a.Take? && steps[at].a.jobId == steps[n].jobId
  {
    hide SharedRun, Mongo.TimelyMongoRun, RetriesWait, ClaimsIn, TakeoversIn, Ahead;
    var cs, sas, id := CoresOf(ws), StoreActions(x, ws, steps), steps[n].jobId;
    DeliveryFilesJob(x, ws, steps, n);
    ReadyWhenFiled(x, ws[n].voice.outbox[steps[n].request], id, ws[n].core.clock);
    assert TurnHasCome(x.queue, cs, sas, n + 1, stop, id);
    ReadyJobIsClaimed(x.queue, cs, sas, n + 1, stop, id);
    var at :| n + 1 <= at < stop && at < |sas| && ClaimsJob(sas[at], id);
    assert sas[at] == AskedBy(x, ws[at], steps[at]);
  }
}
