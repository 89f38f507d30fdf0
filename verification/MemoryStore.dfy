/** The in-memory job store (internal/core/async/memory_store.go). */
module MemoryJobStore {
  import opened Base
  import opened AsyncTypes

  type Jobs = map<string, Job>

  /** Every job is filed under its own id. */
  predicate Filed(jobs: Jobs) {
    forall id :: id in jobs ==> jobs[id].id == id
  }

  // ----- Updates of a job table, by job id; an unknown id changes nothing. -----

  function CompleteIn(jobs: Jobs, id: string, now: Time): Jobs {
    if id in jobs then jobs[id := Complete(jobs[id], now)] else jobs
  }

  function RetryIn(jobs: Jobs, id: string, nextRun: Time, lastError: string, now: Time): Jobs {
    if id in jobs then jobs[id := Retry(jobs[id], nextRun, lastError, now)] else jobs
  }

  function BuryIn(jobs: Jobs, id: string, lastError: string, now: Time): Jobs {
    if id in jobs then jobs[id := Bury(jobs[id], lastError, now)] else jobs
  }

  /** An enqueue is dropped while the job its key points at can still run or has completed. */
  predicate Deduplicated(jobs: Jobs, byIDKey: map<string, string>, job: Job) {
    && job.key in byIDKey
    && byIDKey[job.key] != ""
    && byIDKey[job.key] in jobs
    && !Spent(jobs[byIDKey[job.key]])
  }

  class MemoryStore {
    var jobs: Jobs
    var byIDKey: map<string, string>

    constructor ()
      ensures Valid()
      ensures jobs == map[] && byIDKey == map[]
    {
      jobs := map[];
      byIDKey := map[];
    }

    predicate Valid()
      reads this
    {
      Filed(jobs)
    }

    method Enqueue(job: Job)
      requires Valid()
      modifies this
      ensures Valid()
      ensures Deduplicated(old(jobs), old(byIDKey), job) ==> jobs == old(jobs) && byIDKey == old(byIDKey)
      ensures !Deduplicated(old(jobs), old(byIDKey), job) ==>
                jobs == old(jobs)[job.id := job] && byIDKey == old(byIDKey)[job.key := job.id]
    {
      var existingID := if job.key in byIDKey then byIDKey[job.key] else "";
      if existingID != "" {
        if existingID in jobs {
          var existing := jobs[existingID];
          if existing.status != DeadLetter && existing.status != FailedStatus {
            return;
          }
        }
      }
      jobs := jobs[job.id := job];
      byIDKey := byIDKey[job.key := job.id];
    }

    /** Takes some ready job, whichever the map iteration meets first. */
    method ClaimNext(workerID: string, now: Time, visibilityTimeout: Time) returns (claimed: Option<Job>)
      requires Valid()
      modifies this
      ensures Valid() && byIDKey == old(byIDKey)
      ensures claimed.None? <==> forall id :: id in old(jobs) ==> !ReadyToClaim(old(jobs)[id], now)
      ensures claimed.None? ==> jobs == old(jobs)
      ensures claimed.Some? ==>
                var id := claimed.value.id;
                && id in old(jobs)
                && ReadyToClaim(old(jobs)[id], now)
                && claimed.value == Claim(old(jobs)[id], workerID, now, visibilityTimeout)
                && jobs == old(jobs)[id := claimed.value]
    {
      var unseen := jobs.Keys;
      while unseen != {}
        invariant unseen <= jobs.Keys
        invariant jobs == old(jobs) && byIDKey == old(byIDKey)
        invariant forall id :: id in jobs && id !in unseen ==> !ReadyToClaim(jobs[id], now)
        decreases |unseen|
      {
        var id :| id in unseen;
        unseen := unseen - {id};
        var job := jobs[id];
        if !ReadyToClaim(job, now) {
          continue;
        }
        job := job.(status := Running);
        job := job.(attempts := job.attempts + 1);
        job := job.(lockedBy := workerID);
        job := job.(lockedUntil := Some(now + visibilityTimeout));
        job := job.(updatedAt := now);
        jobs := jobs[id := job];
        return Some(job);
      }
      return None;
    }

    method CompleteJob(jobID: string, now: Time)
      requires Valid()
      modifies `jobs
      ensures Valid() && jobs == CompleteIn(old(jobs), jobID, now)
    {
      if jobID in jobs {
        var job := jobs[jobID];
        job := job.(status := Completed);
        job := job.(lockedBy := "", lockedUntil := None);
        job := job.(updatedAt := now);
        jobs := jobs[jobID := job];
      }
    }

    method RetryJob(jobID: string, nextRun: Time, lastError: string, now: Time)
      requires Valid()
      modifies `jobs
      ensures Valid() && jobs == RetryIn(old(jobs), jobID, nextRun, lastError, now)
    {
      if jobID in jobs {
        var job := jobs[jobID];
        job := job.(status := Retrying);
        job := job.(runAfter := nextRun, lastError := lastError);
        job := job.(lockedBy := "", lockedUntil := None);
        job := job.(updatedAt := now);
        jobs := jobs[jobID := job];
      }
    }

    method BuryJob(jobID: string, lastError: string, now: Time)
      requires Valid()
      modifies `jobs
      ensures Valid() && jobs == BuryIn(old(jobs), jobID, lastError, now)
    {
      if jobID in jobs {
        var job := jobs[jobID];
        job := job.(status := DeadLetter);
        job := job.(lastError := lastError, failedAt := Some(now));
        job := job.(lockedBy := "", lockedUntil := None);
        job := job.(updatedAt := now);
        jobs := jobs[jobID := job];
      }
    }
  }
}
