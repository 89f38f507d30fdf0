/** What a stored job says of its own past: its record is the last event about it, written out. */
module JobRecords {
  import opened Base
  import opened AsyncTypes
  import Backoff
  import MemoryJobStore
  import JobRunner
  import opened JobProtocol
  import opened AttemptAccounting
  import AttemptBound

  /** The last event about the job, if anything happened to it since it was filed. */
  function LastAbout(h: seq<JobEvent>, id: string): Option<JobEvent> {
    if h == [] then None
    else if h[|h| - 1].jobId == id then Some(h[|h| - 1])
    else LastAbout(h[..|h| - 1], id)
  }

  lemma LastAboutGrows(h: seq<JobEvent>, e: JobEvent, id: string)
    ensures LastAbout(h + [e], id) == if e.jobId == id then Some(e) else LastAbout(h, id)
  {
  }

  predicate Unlocked(job: Job) {
    job.lockedBy == "" && job.lockedUntil.None?
  }

  /** The record reads as the last event about the job left it. */
  predicate Tells(cfg: Config, job: Job, last: Option<JobEvent>) {
    && job.maxAttempts == cfg.jobMaxAttempts
    && (last.None? ==>
          && job.status == Pending && job.attempts == 0 && Unlocked(job) && job.lastError == "" && job.failedAt.None?
          && job.runAfter == job.createdAt == job.updatedAt)
    && (last.Some? ==>
          match last.value
          case Claimed(_, attempt, _, at) =>
            && job.status == Running && job.attempts == attempt && job.updatedAt == at
            && job.lockedUntil == Some(at + cfg.visibilityTimeout)
          case Done(_, _, at) => job.status == Completed && Unlocked(job) && job.updatedAt == at
          case Retried(_, attempt, at) =>
            && job.status == Retrying && Unlocked(job) && job.updatedAt == at
            && job.runAfter == at + Backoff.RetryDelay(attempt, cfg.retryBaseDelay, cfg.retryMaxDelay)
          case Buried(_, attempt, at) =>
            && job.status == DeadLetter && Unlocked(job) && job.updatedAt == at && job.failedAt == Some(at)
            && attempt >= job.maxAttempts)
  }

  predicate AllTell(cfg: Config, c: Core) {
    forall id :: id in c.jobs ==> Tells(cfg, c.jobs[id], LastAbout(c.hist, id))
  }

  lemma TellsAfterTake(cfg: Config, c: Core, a: Action)
    requires a.Take? && Enabled(cfg, c, a) && MemoryJobStore.Filed(c.jobs) && AllTell(cfg, c)
    ensures AllTell(cfg, Next(cfg, c, a))
  {
    hide LastAbout, Backoff.RetryDelay;
    var c' := Next(cfg, c, a);
    forall id | id in c'.jobs
      ensures Tells(cfg, c'.jobs[id], LastAbout(c'.hist, id))
    {
      LastAboutGrows(c.hist, c'.hist[|c.hist|], id);
    }
  }

  lemma TellsAfterReport(cfg: Config, c: Core, a: Action)
    requires a.Report? && Enabled(cfg, c, a) && Accounted(c) && AllTell(cfg, c)
    ensures AllTell(cfg, Next(cfg, c, a))
  {
    hide LastAbout, Backoff.RetryDelay, Balanced, DistinctAttempts;
    var c' := Next(cfg, c, a);
    var copy := c.tickets[a.ticket];
    assert TicketCounts(c.hist, c.jobs, copy);
    forall id | id in c'.jobs
      ensures Tells(cfg, c'.jobs[id], LastAbout(c'.hist, id))
    {
      LastAboutGrows(c.hist, c'.hist[|c.hist|], id);
    }
  }

  lemma {:induction false} NothingAbout(h: seq<JobEvent>, id: string)
    requires forall i :: 0 <= i < |h| ==> h[i].jobId != id
    ensures LastAbout(h, id) == None
  {
    if h != [] {
      NothingAbout(h[..|h| - 1], id);
    }
  }

  lemma TellsAfterInsert(cfg: Config, c: Core, a: Action)
    requires a.Insert? && Enabled(cfg, c, a) && AllTell(cfg, c)
    requires forall i :: 0 <= i < |c.hist| ==> c.hist[i].jobId in c.jobs
    ensures AllTell(cfg, Next(cfg, c, a))
  {
    hide LastAbout, Backoff.RetryDelay;
    NothingAbout(c.hist, a.job.id);
  }

  /** In every run, late reports and crashes included, each stored job reads as the last event about it left it. */
  lemma {:induction false} RecordsTellLastEvent(cfg: Config, cs: seq<Core>, acts: seq<Action>, i: nat)
    requires Run(cfg, cs, acts) && i < |cs|
    ensures AllTell(cfg, cs[i])
  {
    if i > 0 {
      hide Accounted, AllTell, Enabled, Next;
      RecordsTellLastEvent(cfg, cs, acts, i - 1);
      AlwaysAccounted(cfg, cs, acts, i - 1);
      TellsStep(cfg, cs[i - 1], acts[i - 1]);
    }
  }

  lemma TellsStep(cfg: Config, c: Core, a: Action)
    requires Enabled(cfg, c, a) && Accounted(c) && AllTell(cfg, c)
    ensures AllTell(cfg, Next(cfg, c, a))
  {
    hide Tells, Balanced, DistinctAttempts, LastAbout;
    match a
    case Insert(_) => TellsAfterInsert(cfg, c, a);
    case Idle =>
    case Tick(_) =>
    case Take(_, _) => TellsAfterTake(cfg, c, a);
    case Report(_, _) => TellsAfterReport(cfg, c, a);
    case Crash(_) =>
  }

  /** The part of a record that no claim and no report ever changes. */
  predicate SameOrder(job: Job, later: Job) {
    && later.id == job.id && later.jobType == job.jobType && later.key == job.key && later.payload == job.payload
    && later.maxAttempts == job.maxAttempts && later.createdAt == job.createdAt && job.attempts <= later.attempts
  }

  /** What was asked for stays as it was asked for, and the names of worker and error are those of the step. */
  lemma OrderKept(cfg: Config, c: Core, a: Action, id: string)
    requires Enabled(cfg, c, a) && MemoryJobStore.Filed(c.jobs) && id in c.jobs
    ensures id in Next(cfg, c, a).jobs && SameOrder(c.jobs[id], Next(cfg, c, a).jobs[id])
    ensures a.Take? && a.jobId == id ==> Next(cfg, c, a).jobs[id].lockedBy == a.workerID
    ensures a.Report? && a.outcome.Failed? && c.tickets[a.ticket].id == id ==>
              Next(cfg, c, a).jobs[id].lastError == a.outcome.message
    ensures (a.Take? && a.jobId == id) || (a.Report? && c.tickets[a.ticket].id == id)
            || Next(cfg, c, a).jobs[id] == c.jobs[id]
  {
    hide Backoff.RetryDelay;
  }

  lemma OrderOn(a: Job, b: Job, c: Job)
    requires SameOrder(a, b) && SameOrder(b, c)
    ensures SameOrder(a, c)
  {
  }

  /** Over any stretch of a run, a job is never lost and remains the one that was asked for. */
  lemma {:induction false} OrderKeptForGood(cfg: Config, cs: seq<Core>, acts: seq<Action>, i: nat, j: nat, id: string)
    requires Run(cfg, cs, acts) && i <= j < |cs| && id in cs[i].jobs
    ensures id in cs[j].jobs && SameOrder(cs[i].jobs[id], cs[j].jobs[id])
    decreases j
  {
    if i < j {
      hide Run, Next, Enabled, Accounted, SameOrder;
      RunAt(cfg, cs, acts);
      OrderKeptForGood(cfg, cs, acts, i, j - 1, id);
      AlwaysAccounted(cfg, cs, acts, j - 1);
      AttemptBound.FiledWhenAccounted(cs[j - 1]);
      OrderKept(cfg, cs[j - 1], acts[j - 1], id);
      OrderOn(cs[i].jobs[id], cs[j - 1].jobs[id], cs[j].jobs[id]);
    }
  }
}
