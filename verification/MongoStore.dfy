/** The MongoDB job store (internal/infra/mongo/async_job_store.go): one collection, atomic updates. */
module MongoJobStore {
  import opened Base
  import opened AsyncTypes
  import opened MemoryJobStore

  /** The unique index on idempotencyKey, or the one on _id, refuses the document. */
  predicate DuplicateKey(docs: Jobs, job: Job) {
    job.id in docs || exists id :: id in docs && docs[id].key == job.key
  }

  /** No two documents share an idempotency key. */
  predicate UniqueKeys(docs: Jobs) {
    forall id, other :: id in docs && other in docs && docs[id].key == docs[other].key ==> id == other
  }

  /** The filter of ClaimNext; a missing lockedUntil on a running document also matches. */
  predicate Matches(job: Job, now: Time) {
    && job.runAfter <= now
    && (|| job.status == Pending
        || job.status == Retrying
        || (job.status == Running && (job.lockedUntil.None? || job.lockedUntil.value < now)))
  }

  /** The sort order of ClaimNext: by runAfter, then by createdAt. */
  predicate NotLater(a: Job, b: Job) {
    a.runAfter < b.runAfter || (a.runAfter == b.runAfter && a.createdAt <= b.createdAt)
  }

  /** `id` may be the first document of the sorted matches; equal keys come in any order. */
  predicate FirstMatch(docs: Jobs, id: string, now: Time) {
    && id in docs
    && Matches(docs[id], now)
    && forall other :: other in docs && Matches(docs[other], now) ==> NotLater(docs[id], docs[other])
  }

  lemma UpdateKeepsUniqueKeys(docs: Jobs, id: string, job: Job)
    requires Filed(docs) && UniqueKeys(docs) && id in docs && job.id == id && job.key == docs[id].key
    ensures Filed(docs[id := job]) && UniqueKeys(docs[id := job])
  {
  }

  class AsyncJobStore {
    var docs: Jobs

    constructor ()
      ensures Valid() && docs == map[]
    {
      docs := map[];
    }

    predicate Valid()
      reads this
    {
      Filed(docs) && UniqueKeys(docs)
    }

    /** Inserts the document unless an index refuses it; the refusal is not an error. */
    method Enqueue(job: Job)
      requires Valid()
      modifies this
      ensures Valid()
      ensures docs == if DuplicateKey(old(docs), job) then old(docs) else old(docs)[job.id := job]
    {
      if job.id in docs {
        return;
      }
      var unseen := docs.Keys;
      while unseen != {}
        invariant docs == old(docs) && unseen <= docs.Keys
        invariant forall id :: id in docs && id !in unseen ==> docs[id].key != job.key
        decreases |unseen|
      {
        var id :| id in unseen;
        if docs[id].key == job.key {
          return;
        }
        unseen := unseen - {id};
      }
      docs := docs[job.id := job];
    }

    /** The find: a first document in the sort order among those that match. */
    method FindFirst(now: Time) returns (first: Option<string>)
      ensures first.None? <==> forall id :: id in docs ==> !Matches(docs[id], now)
      ensures first.Some? ==> FirstMatch(docs, first.value, now)
    {
      hide Matches;
      first := None;
      var unseen := docs.Keys;
      while unseen != {}
        invariant unseen <= docs.Keys
        invariant first.Some? ==> first.value in docs && Matches(docs[first.value], now)
        invariant forall id :: id in docs && id !in unseen && Matches(docs[id], now) ==>
                    first.Some? && NotLater(docs[first.value], docs[id])
        decreases |unseen|
      {
        var id :| id in unseen;
        unseen := unseen - {id};
        if Matches(docs[id], now) && (first.None? || !NotLater(docs[first.value], docs[id])) {
          first := Some(id);
        }
      }
    }

    /** One atomic find-and-update. */
    method ClaimNext(workerID: string, now: Time, visibilityTimeout: Time) returns (claimed: Option<Job>)
      requires Valid()
      modifies this
      ensures Valid()
      ensures claimed.None? <==> forall id :: id in old(docs) ==> !Matches(old(docs)[id], now)
      ensures claimed.None? ==> docs == old(docs)
      ensures claimed.Some? ==>
                var id := claimed.value.id;
                && FirstMatch(old(docs), id, now)
                && claimed.value == Claim(old(docs)[id], workerID, now, visibilityTimeout)
                && docs == old(docs)[id := claimed.value]
    {
      hide Matches, NotLater, UniqueKeys;
      var first := FindFirst(now);
      if first.None? {
        return None;
      }
      var job := docs[first.value].(status := Running, lockedBy := workerID,
                                    lockedUntil := Some(now + visibilityTimeout), updatedAt := now);
      job := job.(attempts := job.attempts + 1);
      UpdateKeepsUniqueKeys(docs, first.value, job);
      docs := docs[first.value := job];
      return Some(job);
    }

    method CompleteJob(jobID: string, now: Time)
      requires Valid()
      modifies this
      ensures Valid() && docs == CompleteIn(old(docs), jobID, now)
    {
      if jobID in docs {
        UpdateKeepsUniqueKeys(docs, jobID, Complete(docs[jobID], now));
        docs := docs[jobID := docs[jobID].(status := Completed, updatedAt := now, lockedBy := "", lockedUntil := None)];
      }
    }

    method RetryJob(jobID: string, nextRun: Time, lastError: string, now: Time)
      requires Valid()
      modifies this
      ensures Valid() && docs == RetryIn(old(docs), jobID, nextRun, lastError, now)
    {
      if jobID in docs {
        UpdateKeepsUniqueKeys(docs, jobID, Retry(docs[jobID], nextRun, lastError, now));
        docs := docs[jobID := docs[jobID].(status := Retrying, runAfter := nextRun, lastError := lastError,
                                           updatedAt := now, lockedBy := "", lockedUntil := None)];
      }
    }

    method BuryJob(jobID: string, lastError: string, now: Time)
      requires Valid()
      modifies this
      ensures Valid() && docs == BuryIn(old(docs), jobID, lastError, now)
    {
      if jobID in docs {
        UpdateKeepsUniqueKeys(docs, jobID, Bury(docs[jobID], lastError, now));
        docs := docs[jobID := docs[jobID].(status := DeadLetter, lastError := lastError, failedAt := Some(now),
                                           updatedAt := now, lockedBy := "", lockedUntil := None)];
      }
    }
  }
}
