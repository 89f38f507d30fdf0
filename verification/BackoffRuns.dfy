/** Backoff over whole runs: how often, and over how long, a job that keeps failing is tried. */
module BackoffRuns {
  import opened Base
  import opened AsyncTypes
  import Backoff
  import MemoryJobStore
  import JobRunner
  import opened JobProtocol
  import opened AttemptAccounting
  import opened LeaseProtocol

  function FirstClaimAt(h: seq<JobEvent>, id: string): Option<Time> {
    if h == [] then None
    else
      var earlier := FirstClaimAt(h[..|h| - 1], id);
      var e := h[|h| - 1];
      if earlier.None? && e.Claimed? && e.jobId == id then Some(e.at) else earlier
  }

  function LastClaimAt(h: seq<JobEvent>, id: string): Option<Time> {
    if h == [] then None
    else
      var e := h[|h| - 1];
      if e.Claimed? && e.jobId == id then Some(e.at) else LastClaimAt(h[..|h| - 1], id)
  }

  lemma ClaimTimesGrow(h: seq<JobEvent>, e: JobEvent, id: string)
    ensures LastClaimAt(h + [e], id) == if e.Claimed? && e.jobId == id then Some(e.at) else LastClaimAt(h, id)
    ensures FirstClaimAt(h + [e], id)
         == if e.Claimed? && e.jobId == id && FirstClaimAt(h, id).None? then Some(e.at) else FirstClaimAt(h, id)
  {
  }

  /** The claims of a job that never lost a lease are spaced by the delays of its failures. */
  predicate Spaced(cfg: Config, h: seq<JobEvent>, job: Job, now: Time) {
    var first, last := FirstClaimAt(h, job.id), LastClaimAt(h, job.id);
    && (job.attempts == 0 <==> first.None?)
    && (job.status == Pending ==> job.attempts == 0)
    && (job.status == Retrying ==> job.attempts >= 1)
    && (job.attempts >= 1 ==>
          && last.Some?
          && last.value <= now
          && last.value >= first.value + Backoff.SumOfDelays(job.attempts - 1, cfg.retryBaseDelay, cfg.retryMaxDelay))
    && (job.status == Retrying ==>
          job.runAfter >= first.value + Backoff.SumOfDelays(job.attempts, cfg.retryBaseDelay, cfg.retryMaxDelay))
    && (job.status == DeadLetter ==> job.attempts >= job.maxAttempts)
  }

  predicate AllSpaced(cfg: Config, c: Core) {
    forall id :: id in c.jobs && Reclaims(c.hist, id) == 0 ==> Spaced(cfg, c.hist, c.jobs[id], c.clock)
  }

  lemma NoDelayYet(base: Time, max: Time)
    ensures Backoff.SumOfDelays(0, base, max) == 0
  {
  }

  lemma OneMoreDelay(failures: nat, base: Time, max: Time)
    requires failures >= 1
    ensures Backoff.SumOfDelays(failures, base, max)
         == Backoff.SumOfDelays(failures - 1, base, max) + Backoff.RetryDelay(failures, base, max)
  {
    hide Backoff.RetryDelay;
  }

  lemma SpacedTake(cfg: Config, h: seq<JobEvent>, job: Job, workerID: string, now: Time)
    requires Spaced(cfg, h, job, now) && ReadyToClaim(job, now) && job.status != Running
    ensures var copy := Claim(job, workerID, now, cfg.visibilityTimeout);
            Spaced(cfg, h + [Claimed(job.id, copy.attempts, job.status, now)], copy, now)
  {
    hide Backoff.RetryDelay, Backoff.SumOfDelays, FirstClaimAt, LastClaimAt;
    NoDelayYet(cfg.retryBaseDelay, cfg.retryMaxDelay);
    ClaimTimesGrow(h, Claimed(job.id, job.attempts + 1, job.status, now), job.id);
  }

  lemma SpacedReport(cfg: Config, h: seq<JobEvent>, job: Job, copy: Job, outcome: JobRunner.Outcome, now: Time)
    requires Spaced(cfg, h, job, now) && job.attempts >= 1
    requires copy.id == job.id && copy.attempts == job.attempts && copy.maxAttempts == job.maxAttempts
    ensures Spaced(cfg, h + [ReportEvent(copy, outcome, now)], JobRunner.ReportOn(cfg, job, copy, outcome, now), now)
  {
    hide Backoff.RetryDelay, Backoff.SumOfDelays, FirstClaimAt, LastClaimAt;
    OneMoreDelay(job.attempts, cfg.retryBaseDelay, cfg.retryMaxDelay);
    ClaimTimesGrow(h, ReportEvent(copy, outcome, now), job.id);
  }

  lemma SpacedOther(cfg: Config, h: seq<JobEvent>, e: JobEvent, job: Job, now: Time)
    requires Spaced(cfg, h, job, now) && e.jobId != job.id
    ensures Spaced(cfg, h + [e], job, now)
  {
    hide Backoff.RetryDelay, Backoff.SumOfDelays, FirstClaimAt, LastClaimAt;
    ClaimTimesGrow(h, e, job.id);
  }

  lemma NeverClaimed(h: seq<JobEvent>, id: string)
    requires forall i :: 0 <= i < |h| ==> h[i].jobId != id
    ensures FirstClaimAt(h, id) == None && LastClaimAt(h, id) == None
  {
  }

  lemma SpacedAfterTake(cfg: Config, c: Core, a: Action, id: string)
    requires a.Take? && Enabled(cfg, c, a) && MemoryJobStore.Filed(c.jobs) && AllSpaced(cfg, c)
    requires id in c.jobs && Reclaims(Next(cfg, c, a).hist, id) == 0
    ensures Spaced(cfg, Next(cfg, c, a).hist, Next(cfg, c, a).jobs[id], c.clock)
  {
    hide Spaced;
    var e := Claimed(a.jobId, c.jobs[a.jobId].attempts + 1, c.jobs[a.jobId].status, c.clock);
    HistoryGrows(c.hist, e, id);
    assert Reclaims(c.hist + [e], id) >= Reclaims(c.hist, id);
    if id == a.jobId {
      SpacedTake(cfg, c.hist, c.jobs[id], a.workerID, c.clock);
    } else {
      SpacedOther(cfg, c.hist, e, c.jobs[id], c.clock);
    }
  }

  lemma SpacedAfterReport(cfg: Config, c: Core, a: Action, id: string)
    requires a.Report? && Enabled(cfg, c, a) && TimelyAction(c, a)
    requires Accounted(c) && LeasesHeld(c) && AllSpaced(cfg, c)
    requires id in c.jobs && Reclaims(Next(cfg, c, a).hist, id) == 0
    ensures Spaced(cfg, Next(cfg, c, a).hist, Next(cfg, c, a).jobs[id], c.clock)
  {
    hide Spaced, Balanced, DistinctAttempts;
    var copy := c.tickets[a.ticket];
    var e := ReportEvent(copy, a.outcome, c.clock);
    HistoryGrows(c.hist, e, id);
    assert Reclaims(c.hist + [e], id) == Reclaims(c.hist, id);
    assert Holds(c.jobs, copy) && TicketCounts(c.hist, c.jobs, copy);
    if id == copy.id {
      SpacedReport(cfg, c.hist, c.jobs[id], copy, a.outcome, c.clock);
    } else {
      SpacedOther(cfg, c.hist, e, c.jobs[id], c.clock);
    }
  }

  lemma SpacedAfterInsert(cfg: Config, c: Core, a: Action, id: string)
    requires a.Insert? && Enabled(cfg, c, a) && AllSpaced(cfg, c)
    requires forall i :: 0 <= i < |c.hist| ==> c.hist[i].jobId in c.jobs
    requires id in Next(cfg, c, a).jobs && Reclaims(c.hist, id) == 0
    ensures Spaced(cfg, c.hist, Next(cfg, c, a).jobs[id], c.clock)
  {
    if id == a.job.id {
      NeverClaimed(c.hist, id);
    }
  }

  lemma SpacedStep(cfg: Config, c: Core, a: Action)
    requires Enabled(cfg, c, a) && TimelyAction(c, a)
    requires Accounted(c) && LeasesHeld(c) && AllSpaced(cfg, c)
    ensures AllSpaced(cfg, Next(cfg, c, a))
  {
    hide Balanced, DistinctAttempts, LeasesHeld, TimelyAction, JobRunner.ReportOn, ReportEvent;
    var c' := Next(cfg, c, a);
    forall id | id in c'.jobs && Reclaims(c'.hist, id) == 0
      ensures Spaced(cfg, c'.hist, c'.jobs[id], c'.clock)
    {
      match a
      case Insert(_) => SpacedAfterInsert(cfg, c, a, id);
      case Idle =>
      case Tick(_) =>
      case Take(_, _) => SpacedAfterTake(cfg, c, a, id);
      case Report(_, _) => SpacedAfterReport(cfg, c, a, id);
      case Crash(_) =>
    }
  }

  lemma {:induction false} AlwaysSpaced(cfg: Config, cs: seq<Core>, acts: seq<Action>, i: nat)
    requires Run(cfg, cs, acts) && Timely(cs, acts) && i < |cs|
    ensures AllSpaced(cfg, cs[i])
  {
    if i > 0 {
      hide AllSpaced, LeasesHeld, Accounted, Next, Enabled;
      AlwaysSpaced(cfg, cs, acts, i - 1);
      LeasesAlwaysHeld(cfg, cs, acts, i - 1);
      assert TimelyAction(cs[i - 1], acts[i - 1]);
      SpacedStep(cfg, cs[i - 1], acts[i - 1]);
    } else {
      assert cs[0].jobs == map[];
    }
  }

  /**
   A job that failed until it was dead-lettered, and never lost a lease, was claimed exactly MaxAttempts times,
   and its last claim came no sooner than the sum of all its delays after its first.
   */
  lemma ExhaustedJobWasTriedInFull(cfg: Config, cs: seq<Core>, acts: seq<Action>, i: nat, id: string)
    requires Run(cfg, cs, acts) && Timely(cs, acts) && i < |cs|
    requires id in cs[i].jobs && cs[i].jobs[id].status == DeadLetter && Reclaims(cs[i].hist, id) == 0
    ensures var job := cs[i].jobs[id];
            var first, last := FirstClaimAt(cs[i].hist, id), LastClaimAt(cs[i].hist, id);
            && Claims(cs[i].hist, id) == job.maxAttempts >= 1
            && first.Some? && last.Some?
            && last.value >= first.value + Backoff.SumOfDelays(job.maxAttempts - 1, cfg.retryBaseDelay, cfg.retryMaxDelay)
  {
    hide Balanced, TicketsInOrder, LeasesHeld, Backoff.RetryDelay, Backoff.SumOfDelays;
    AlwaysSpaced(cfg, cs, acts, i);
    AttemptsAreAccountedFor(cfg, cs, acts, i, id);
    LeasesAlwaysHeld(cfg, cs, acts, i);
    assert Spaced(cfg, cs[i].hist, cs[i].jobs[id], cs[i].clock);
  }
}
