/** Jobs, their statuses and the queue configuration (internal/core/async/types.go). */
module AsyncTypes {
  import opened Base

  datatype JobStatus = Pending | Running | Completed | Retrying | FailedStatus | DeadLetter | Cancelled

  /** What the handlers decode: a room and the user who acted on it, or the scheduler's instant. */
  datatype Payload = RoomJob(roomId: string, actorUserId: string) | Scheduled(at: Time)

  datatype Job = Job(
    id: string,
    jobType: string,
    status: JobStatus,
    key: string,
    payload: Payload,
    attempts: nat,
    maxAttempts: int,
    lockedBy: string,
    lockedUntil: Option<Time>,
    runAfter: Time,
    lastError: string,
    failedAt: Option<Time>,
    createdAt: Time,
    updatedAt: Time
  )

  datatype Config = Config(
    workerConcurrency: int,
    jobMaxAttempts: int,
    visibilityTimeout: Time,
    retryBaseDelay: Time,
    retryMaxDelay: Time,
    deadLetterEnabled: bool,
    pollInterval: Time
  )

  /** What every queue built by NewQueue can rely on. */
  predicate Normalised(cfg: Config) {
    && cfg.workerConcurrency > 0
    && cfg.jobMaxAttempts > 0
    && cfg.visibilityTimeout > 0
    && cfg.retryBaseDelay > 0
    && cfg.retryMaxDelay > 0
    && cfg.pollInterval > 0
  }

  /** Replaces every non-positive setting by its default and keeps the others. */
  method NewQueue(given: Config) returns (cfg: Config)
    ensures Normalised(cfg)
    ensures cfg.deadLetterEnabled == given.deadLetterEnabled
    ensures given.jobMaxAttempts > 0 ==> cfg.jobMaxAttempts == given.jobMaxAttempts
    ensures given.jobMaxAttempts <= 0 ==> cfg.jobMaxAttempts == 5
    ensures given.visibilityTimeout > 0 ==> cfg.visibilityTimeout == given.visibilityTimeout
    ensures given.visibilityTimeout <= 0 ==> cfg.visibilityTimeout == 300 * SECOND
    ensures given.retryBaseDelay > 0 ==> cfg.retryBaseDelay == given.retryBaseDelay
    ensures given.retryBaseDelay <= 0 ==> cfg.retryBaseDelay == 5 * SECOND
    ensures given.retryMaxDelay > 0 ==> cfg.retryMaxDelay == given.retryMaxDelay
    ensures given.retryMaxDelay <= 0 ==> cfg.retryMaxDelay == 300 * SECOND
    ensures given.pollInterval > 0 ==> cfg.pollInterval == given.pollInterval
    ensures given.pollInterval <= 0 ==> cfg.pollInterval == SECOND
    ensures given.workerConcurrency > 0 ==> cfg.workerConcurrency == given.workerConcurrency
    ensures given.workerConcurrency <= 0 ==> cfg.workerConcurrency == 1
  {
    cfg := given;
    if cfg.jobMaxAttempts <= 0 {
      cfg := cfg.(jobMaxAttempts := 5);
    }
    if cfg.visibilityTimeout <= 0 {
      cfg := cfg.(visibilityTimeout := 300 * SECOND);
    }
    if cfg.retryBaseDelay <= 0 {
      cfg := cfg.(retryBaseDelay := 5 * SECOND);
    }
    if cfg.retryMaxDelay <= 0 {
      cfg := cfg.(retryMaxDelay := 300 * SECOND);
    }
    if cfg.pollInterval <= 0 {
      cfg := cfg.(pollInterval := SECOND);
    }
    if cfg.workerConcurrency <= 0 {
      cfg := cfg.(workerConcurrency := 1);
    }
  }

  /** The job a queue writes when something is enqueued at `now`. */
  function NewJob(cfg: Config, id: string, jobType: string, key: string, payload: Payload, now: Time): Job {
    Job(id, jobType, Pending, key, payload, 0, cfg.jobMaxAttempts, "", None, now, "", None, now, now)
  }

  // ----- The single-job updates; both stores apply exactly these. -----

  /** Whether a worker may take the job at `now`: due, and waiting or holding an expired lease. */
  predicate ReadyToClaim(job: Job, now: Time) {
    if job.runAfter > now then false
    else if job.status != Pending && job.status != Retrying && job.status != Running then false
    else if job.status == Running then job.lockedUntil.Some? && job.lockedUntil.value < now
    else true
  }

  function Claim(job: Job, workerId: string, now: Time, visibilityTimeout: Time): Job {
    job.(status := Running, attempts := job.attempts + 1, lockedBy := workerId,
         lockedUntil := Some(now + visibilityTimeout), updatedAt := now)
  }

  function Complete(job: Job, now: Time): Job {
    job.(status := Completed, lockedBy := "", lockedUntil := None, updatedAt := now)
  }

  function Retry(job: Job, nextRun: Time, lastError: string, now: Time): Job {
    job.(status := Retrying, runAfter := nextRun, lastError := lastError,
         lockedBy := "", lockedUntil := None, updatedAt := now)
  }

  function Bury(job: Job, lastError: string, now: Time): Job {
    job.(status := DeadLetter, lastError := lastError, failedAt := Some(now),
         lockedBy := "", lockedUntil := None, updatedAt := now)
  }

  /** A job that no longer blocks its idempotency key in the memory store. */
  predicate Spent(job: Job) {
    job.status == DeadLetter || job.status == FailedStatus
  }
}
