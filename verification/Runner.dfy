/** One poll of a worker (internal/core/async/runner.go): claim, run the handler, report. */
module JobRunner {
  import opened Base
  import opened AsyncTypes
  import Backoff
  import opened MemoryJobStore

  /** What the handler of a claimed job came back with. */
  datatype Outcome = Succeeded | Failed(message: string)

  /** A job after a worker holding `copy` of it reports; only the copy decides between retry and dead letter. */
  function ReportOn(cfg: Config, job: Job, copy: Job, outcome: Outcome, now: Time): Job {
    match outcome
    case Succeeded => Complete(job, now)
    case Failed(message) =>
      if copy.attempts >= copy.maxAttempts then Bury(job, message, now)
      else
        var delay := Backoff.RetryDelay(copy.attempts, cfg.retryBaseDelay, cfg.retryMaxDelay);
        Retry(job, now + delay, message, now)
  }

  /** The job table after that report; nothing checks that the worker still holds the lease. */
  function ReportIn(cfg: Config, jobs: Jobs, copy: Job, outcome: Outcome, now: Time): Jobs {
    if copy.id in jobs then jobs[copy.id := ReportOn(cfg, jobs[copy.id], copy, outcome, now)] else jobs
  }

  /** The producer's side: Queue.Enqueue builds a pending job that is due at once and writes it to the store. */
  class Queue {
    const store: MemoryStore
    const cfg: Config

    constructor (store: MemoryStore, cfg: Config)
      ensures this.store == store && this.cfg == cfg
    {
      this.store := store;
      this.cfg := cfg;
    }

    method Enqueue(id: string, jobType: string, key: string, payload: Payload, now: Time)
      requires store.Valid()
      modifies store
      ensures store.Valid()
      ensures var job := NewJob(cfg, id, jobType, key, payload, now);
              if Deduplicated(old(store.jobs), old(store.byIDKey), job) then
                store.jobs == old(store.jobs) && store.byIDKey == old(store.byIDKey)
              else
                store.jobs == old(store.jobs)[id := job] && store.byIDKey == old(store.byIDKey)[key := id]
    {
      var job := Job(id, jobType, Pending, key, payload, 0, cfg.jobMaxAttempts, "", None, now, "", None, now, now);
      store.Enqueue(job);
    }
  }

  class Runner {
    const store: MemoryStore
    const cfg: Config
    const workerID: string
    var handlers: set<string>

    constructor (store: MemoryStore, cfg: Config, workerID: string)
      ensures this.store == store && this.cfg == cfg && this.workerID == workerID && handlers == {}
    {
      this.store := store;
      this.cfg := cfg;
      this.workerID := workerID;
      handlers := {};
    }

    method Handle(jobType: string)
      modifies this
      ensures handlers == old(handlers) + {jobType}
    {
      handlers := handlers + {jobType};
    }

    method Fail(job: Job, message: string, now: Time)
      requires store.Valid()
      modifies store`jobs
      ensures store.Valid() && store.jobs == ReportIn(cfg, old(store.jobs), job, Failed(message), now)
    {
      if job.attempts >= job.maxAttempts {
        if cfg.deadLetterEnabled {
          store.BuryJob(job.id, message, now);
          return;
        }
        store.BuryJob(job.id, message, now);
        return;
      }
      var delay := Backoff.RetryDelay(job.attempts, cfg.retryBaseDelay, cfg.retryMaxDelay);
      store.RetryJob(job.id, now + delay, message, now);
    }

    /** One tick of a worker. The handler's answer is a parameter; a missing handler fails the job. */
    method ProcessOnce(now: Time, handlerAnswer: Outcome, reportAt: Time) returns (claimed: Option<Job>)
      requires store.Valid()
      modifies store
      ensures store.Valid() && store.byIDKey == old(store.byIDKey)
      ensures claimed.None? <==> forall id :: id in old(store.jobs) ==> !ReadyToClaim(old(store.jobs)[id], now)
      ensures claimed.None? ==> store.jobs == old(store.jobs)
      ensures claimed.Some? ==>
                var copy := claimed.value;
                var outcome := if copy.jobType in handlers then handlerAnswer else Failed("handler not registered");
                && copy.id in old(store.jobs)
                && ReadyToClaim(old(store.jobs)[copy.id], now)
                && copy == Claim(old(store.jobs)[copy.id], workerID, now, cfg.visibilityTimeout)
                && store.jobs == ReportIn(cfg, old(store.jobs)[copy.id := copy], copy, outcome, reportAt)
    {
      claimed := store.ClaimNext(workerID, now, cfg.visibilityTimeout);
      if claimed.None? {
        return;
      }
      var job := claimed.value;
      if job.jobType !in handlers {
        Fail(job, "handler not registered", reportAt);
        return;
      }
      if handlerAnswer.Failed? {
        Fail(job, handlerAnswer.message, reportAt);
        return;
      }
      store.CompleteJob(job.id, reportAt);
    }
  }
}
