/** The memory store under concurrent workers: runs of enqueues and protocol actions, and idempotency. */
module MemoryQueue {
  import opened Base
  import opened AsyncTypes
  import Backoff
  import opened MemoryJobStore
  import opened JobRunner
  import opened JobProtocol
  import opened LeaseProtocol

  /** What happens at a store: an enqueue it may drop, or any other action of the protocol. */
  datatype StoreAction = Enqueue(job: Job) | Other(a: Action)

  /** The protocol state together with the memory store's index of idempotency keys. */
  datatype Mem = Mem(core: Core, index: map<string, string>)

  predicate Offered(cfg: Config, c: Core, sa: StoreAction) {
    match sa
    case Enqueue(job) => FreshJob(cfg, job, c.clock) && job.id !in c.jobs
    case Other(a) => !a.Insert? && Enabled(cfg, c, a)
  }

  function MemAction(m: Mem, sa: StoreAction): Action {
    match sa
    case Enqueue(job) => if Deduplicated(m.core.jobs, m.index, job) then Idle else Insert(job)
    case Other(a) => a
  }

  function MemNext(cfg: Config, m: Mem, sa: StoreAction): Mem
    requires Offered(cfg, m.core, sa)
  {
    var a := MemAction(m, sa);
    Mem(Next(cfg, m.core, a), if a.Insert? then m.index[a.job.key := a.job.id] else m.index)
  }

  predicate MemRun(cfg: Config, ms: seq<Mem>, sas: seq<StoreAction>) {
    && Normalised(cfg)
    && |ms| == |sas| + 1
    && Init(ms[0].core) && ms[0].index == map[]
    && forall i :: 0 <= i < |sas| ==> Offered(cfg, ms[i].core, sas[i]) && ms[i + 1] == MemNext(cfg, ms[i], sas[i])
  }

  lemma MemRunExtends(cfg: Config, ms: seq<Mem>, sas: seq<StoreAction>, sa: StoreAction)
    requires MemRun(cfg, ms, sas) && Offered(cfg, ms[|sas|].core, sa)
    ensures MemRun(cfg, ms + [MemNext(cfg, ms[|sas|], sa)], sas + [sa])
  {
  }

  function Cores(ms: seq<Mem>): (cs: seq<Core>)
    ensures |cs| == |ms| && forall i :: 0 <= i < |ms| ==> cs[i] == ms[i].core
  {
    seq(|ms|, i requires 0 <= i < |ms| => ms[i].core)
  }

  function Actions(ms: seq<Mem>, sas: seq<StoreAction>): (acts: seq<Action>)
    requires |ms| == |sas| + 1
    ensures |acts| == |sas| && forall i :: 0 <= i < |sas| ==> acts[i] == MemAction(ms[i], sas[i])
  {
    seq(|sas|, i requires 0 <= i < |sas| => MemAction(ms[i], sas[i]))
  }

  predicate TimelyMemRun(cfg: Config, ms: seq<Mem>, sas: seq<StoreAction>) {
    MemRun(cfg, ms, sas) && Timely(Cores(ms), Actions(ms, sas))
  }

  /** A run of the memory store is a run of the protocol. */
  lemma MemRunIsRun(cfg: Config, ms: seq<Mem>, sas: seq<StoreAction>)
    requires MemRun(cfg, ms, sas)
    ensures Run(cfg, Cores(ms), Actions(ms, sas))
  {
  }

  // ----- Idempotency -----

  /** Every index entry names a job with that key, and every job's key is indexed. */
  predicate IndexSound(jobs: Jobs, index: map<string, string>) {
    && (forall k :: k in index ==> index[k] != "" && index[k] in jobs && jobs[index[k]].key == k)
    && (forall id :: id in jobs ==> jobs[id].key in index)
  }

  /** The index stays sound whatever happens, late reports included. */
  lemma IndexSoundStep(cfg: Config, m: Mem, sa: StoreAction)
    requires Offered(cfg, m.core, sa) && Filed(m.core.jobs) && IndexSound(m.core.jobs, m.index)
    ensures IndexSound(MemNext(cfg, m, sa).core.jobs, MemNext(cfg, m, sa).index)
  {
    hide ReportIn, ReportEvent;
    if sa.Other? && sa.a.Report? {
      IndexAfterReport(cfg, m.core.jobs, m.index, m.core.tickets[sa.a.ticket], sa.a.outcome, m.core.clock);
    }
  }

  lemma IndexAfterReport(cfg: Config, jobs: Jobs, index: map<string, string>, copy: Job, outcome: Outcome, now: Time)
    requires IndexSound(jobs, index)
    ensures IndexSound(ReportIn(cfg, jobs, copy, outcome, now), index)
  {
    hide ReportOn;
    if copy.id in jobs {
      ReportKeepsIdentity(cfg, jobs[copy.id], copy, outcome, now);
    }
  }

  lemma ReportKeepsIdentity(cfg: Config, job: Job, copy: Job, outcome: Outcome, now: Time)
    ensures var after := ReportOn(cfg, job, copy, outcome, now);
            && after.id == job.id && after.key == job.key && after.jobType == job.jobType && after.payload == job.payload
  {
    hide Backoff.RetryDelay;
  }

  /** A job that is neither dead-lettered nor failed is the one its key points at. */
  predicate LiveJobIndexed(jobs: Jobs, index: map<string, string>) {
    forall id :: id in jobs && !Spent(jobs[id]) ==> jobs[id].key in index && index[jobs[id].key] == id
  }

  predicate Idempotent(m: Mem) {
    IndexSound(m.core.jobs, m.index) && LiveJobIndexed(m.core.jobs, m.index)
  }

  lemma IdempotentEnqueue(cfg: Config, m: Mem, sa: StoreAction)
    requires sa.Enqueue? && Offered(cfg, m.core, sa) && Filed(m.core.jobs) && Idempotent(m)
    ensures Idempotent(MemNext(cfg, m, sa))
  {
  }

  lemma IdempotentReportIff(jobs: Jobs, index: map<string, string>, job: Job)
    requires Filed(jobs) && IndexSound(jobs, index) && LiveJobIndexed(jobs, index)
    requires job.id in jobs && job.key == jobs[job.id].key
    ensures IndexSound(jobs[job.id := job], index)
    ensures LiveJobIndexed(jobs[job.id := job], index)
       <==> !(Spent(jobs[job.id]) && !Spent(job) && index[job.key] != job.id)
  {
    var jobs' := jobs[job.id := job];
    if Spent(jobs[job.id]) && !Spent(job) && index[job.key] != job.id {
      assert job.id in jobs' && !Spent(jobs'[job.id]);
    }
  }

  lemma IdempotentTake(jobs: Jobs, index: map<string, string>, job: Job)
    requires Filed(jobs) && IndexSound(jobs, index) && LiveJobIndexed(jobs, index)
    requires job.id in jobs && job.key == jobs[job.id].key && !Spent(jobs[job.id]) && !Spent(job)
    ensures IndexSound(jobs[job.id := job], index) && LiveJobIndexed(jobs[job.id := job], index)
  {
  }

  /** The report revives a dead-lettered or failed job whose key has moved on to another job. */
  predicate RevivesReplacedJob(cfg: Config, m: Mem, sa: StoreAction)
    requires Offered(cfg, m.core, sa) && Idempotent(m)
  {
    && sa.Other? && sa.a.Report?
    && var copy := m.core.tickets[sa.a.ticket];
       && copy.id in m.core.jobs
       && Spent(m.core.jobs[copy.id])
       && !Spent(ReportOn(cfg, m.core.jobs[copy.id], copy, sa.a.outcome, m.core.clock))
       && m.index[m.core.jobs[copy.id].key] != copy.id
  }

  /** That is exactly what it takes to break idempotency. */
  lemma IdempotentKeptIff(cfg: Config, m: Mem, sa: StoreAction)
    requires Offered(cfg, m.core, sa) && Filed(m.core.jobs) && Idempotent(m)
    ensures Idempotent(MemNext(cfg, m, sa)) <==> !RevivesReplacedJob(cfg, m, sa)
  {
    hide LiveJobIndexed, IndexSound;
    if sa.Enqueue? {
      IdempotentEnqueue(cfg, m, sa);
    } else if sa.a.Take? {
      IdempotentTake(m.core.jobs, m.index, Claim(m.core.jobs[sa.a.jobId], sa.a.workerID, m.core.clock, cfg.visibilityTimeout));
    } else if sa.a.Report? {
      var copy := m.core.tickets[sa.a.ticket];
      if copy.id in m.core.jobs {
        IdempotentReportIff(m.core.jobs, m.index, ReportOn(cfg, m.core.jobs[copy.id], copy, sa.a.outcome, m.core.clock));
      }
    }
  }

  lemma IdempotentStep(cfg: Config, m: Mem, sa: StoreAction)
    requires Offered(cfg, m.core, sa) && TimelyAction(m.core, MemAction(m, sa))
    requires Filed(m.core.jobs) && LeasesHeld(m.core) && Idempotent(m)
    ensures Idempotent(MemNext(cfg, m, sa))
  {
    hide LiveJobIndexed;
    IdempotentKeptIff(cfg, m, sa);
    if sa.Other? && sa.a.Report? {
      assert Holds(m.core.jobs, m.core.tickets[sa.a.ticket]);
    }
  }

  lemma {:induction false} AlwaysIdempotent(cfg: Config, ms: seq<Mem>, sas: seq<StoreAction>, i: nat)
    requires TimelyMemRun(cfg, ms, sas) && i < |ms|
    ensures Idempotent(ms[i])
  {
    if i > 0 {
      AlwaysIdempotent(cfg, ms, sas, i - 1);
      MemRunIsRun(cfg, ms, sas);
      LeasesAlwaysHeld(cfg, Cores(ms), Actions(ms, sas), i - 1);
      assert TimelyAction(Cores(ms)[i - 1], Actions(ms, sas)[i - 1]);
      IdempotentStep(cfg, ms[i - 1], sas[i - 1]);
    }
  }

  /** Under timely reports a key has at most one job outside DeadLetter and Failed, and the index points at it. */
  lemma OneLiveJobPerKey(cfg: Config, ms: seq<Mem>, sas: seq<StoreAction>, i: nat, id: string, other: string)
    requires TimelyMemRun(cfg, ms, sas) && i < |ms|
    requires var jobs := ms[i].core.jobs;
             && id in jobs && other in jobs && jobs[id].key == jobs[other].key
             && !Spent(jobs[id]) && !Spent(jobs[other])
    ensures id == other
    ensures var key := ms[i].core.jobs[id].key; key in ms[i].index && ms[i].index[key] == id
  {
    AlwaysIdempotent(cfg, ms, sas, i);
  }

  // ----- A late report that leaves two live jobs under one key -----

  /** The plan of LeaseProtocol, with the second worker failing the job and its key enqueued again. */
  function LatePlan(): seq<StoreAction> {
    var second := NewJob(SmallConfig(1), "job_2", "close_room_sessions", "k", Scheduled(0), 11);
    [Enqueue(SmallJob(1)), Other(Take("job_1", "w1")), Other(Tick(11)), Other(Take("job_1", "w2")),
     Other(Report(1, Failed("boom"))), Enqueue(second), Other(Report(0, Succeeded))]
  }

  lemma LateReportLeavesTwoLiveJobs() returns (ms: seq<Mem>)
    ensures MemRun(SmallConfig(1), ms, LatePlan())
    ensures var jobs := ms[7].core.jobs;
            && "job_1" in jobs && "job_2" in jobs
            && jobs["job_1"].key == jobs["job_2"].key
            && !Spent(jobs["job_1"]) && !Spent(jobs["job_2"])
  {
    var cfg := SmallConfig(1);
    var plan := LatePlan();
    hide Backoff.RetryDelay, Run;
    var cs := PlayFirstFour(1);
    RunAt(cfg, cs, Plan(1)[..4]);
    var one := map["k" := "job_1"];
    var m4 := Mem(cs[4], one);
    var m5 := MemNext(cfg, m4, plan[4]);
    assert m5.core.jobs["job_1"].status == DeadLetter;
    var m6 := MemNext(cfg, m5, plan[5]);
    var m7 := MemNext(cfg, m6, plan[6]);
    ms := [Mem(cs[0], map[]), Mem(cs[1], one), Mem(cs[2], one), Mem(cs[3], one), m4, m5, m6, m7];
    forall i | 0 <= i < |plan|
      ensures Offered(cfg, ms[i].core, plan[i]) && ms[i + 1] == MemNext(cfg, ms[i], plan[i])
    {
      if i < 4 {
        assert Plan(1)[..4][i] == MemAction(ms[i], plan[i]);
      }
    }
  }
}
