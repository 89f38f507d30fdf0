/**
 When a job is attempted more often than its maximum. The claim never looks at the attempts made, so the bound
 holds only as long as nobody claims a job that has used them up.
 */
module AttemptBound {
  import opened Base
  import opened AsyncTypes
  import Backoff
  import MemoryJobStore
  import opened JobProtocol
  import opened AttemptAccounting
  import opened LeaseProtocol

  /** The step claims a job whose attempts are already used up. */
  predicate ClaimsPastMaximum(c: Core, a: Action, id: string) {
    a.Take? && a.jobId == id && id in c.jobs && c.jobs[id].attempts >= c.jobs[id].maxAttempts
  }

  /** It does so because the lease of the last attempt ran out unreported. */
  predicate TakesOverAtMaximum(c: Core, a: Action, id: string) {
    && ClaimsPastMaximum(c, a, id)
    && c.jobs[id].status == Running && c.jobs[id].lockedUntil.Some? && c.jobs[id].lockedUntil.value < c.clock
  }

  /** A worker reports on a job that has been claimed again since it claimed it. */
  predicate SupersededReport(c: Core, a: Action, id: string) {
    && a.Report? && a.ticket in c.tickets && c.tickets[a.ticket].id == id
    && id in c.jobs && c.tickets[a.ticket].attempts < c.jobs[id].attempts
  }

  lemma AttemptsStep(cfg: Config, c: Core, a: Action, id: string)
    requires Enabled(cfg, c, a) && MemoryJobStore.Filed(c.jobs) && id in c.jobs
    ensures var c' := Next(cfg, c, a);
            && id in c'.jobs && c'.jobs[id].maxAttempts == c.jobs[id].maxAttempts
            && c'.jobs[id].attempts == c.jobs[id].attempts + (if a.Take? && a.jobId == id then 1 else 0)
  {
    hide Backoff.RetryDelay, ReportEvent;
  }

  lemma FiledWhenAccounted(c: Core)
    requires Accounted(c)
    ensures MemoryJobStore.Filed(c.jobs)
  {
  }

  lemma {:induction false} JobsStay(cfg: Config, cs: seq<Core>, acts: seq<Action>, i: nat, j: nat, id: string)
    requires Run(cfg, cs, acts) && i <= j < |cs| && id in cs[i].jobs
    ensures id in cs[j].jobs
    decreases j
  {
    if i < j {
      hide Run, Accounted, Next, Enabled;
      RunAt(cfg, cs, acts);
      JobsStay(cfg, cs, acts, i, j - 1, id);
      AlwaysAccounted(cfg, cs, acts, j - 1);
      FiledWhenAccounted(cs[j - 1]);
      AttemptsStep(cfg, cs[j - 1], acts[j - 1], id);
    }
  }

  /** In any run a job has exceeded its maximum exactly when some step claimed it with its attempts used up. */
  lemma {:induction false} BoundExceededIff(cfg: Config, cs: seq<Core>, acts: seq<Action>, i: nat, id: string)
    requires Run(cfg, cs, acts) && i < |cs| && id in cs[i].jobs
    ensures cs[i].jobs[id].attempts > cs[i].jobs[id].maxAttempts
       <==> exists k :: 0 <= k < i && ClaimsPastMaximum(cs[k], acts[k], id)
  {
    hide Accounted, Next, Enabled;
    RunAt(cfg, cs, acts);
    if i > 0 {
      AlwaysAccounted(cfg, cs, acts, i - 1);
      FiledWhenAccounted(cs[i - 1]);
      if id in cs[i - 1].jobs {
        BoundExceededIff(cfg, cs, acts, i - 1, id);
        AttemptsStep(cfg, cs[i - 1], acts[i - 1], id);
      } else {
        JustInserted(cfg, cs[i - 1], acts[i - 1], id);
        forall k | 0 <= k < i
          ensures !ClaimsPastMaximum(cs[k], acts[k], id)
        {
          if id in cs[k].jobs {
            JobsStay(cfg, cs, acts, k, i - 1, id);
          }
        }
      }
    }
  }

  lemma JustInserted(cfg: Config, c: Core, a: Action, id: string)
    requires Normalised(cfg) && Enabled(cfg, c, a) && id !in c.jobs && id in Next(cfg, c, a).jobs
    ensures a.Insert? && a.job.id == id && Next(cfg, c, a).jobs[id] == a.job
    ensures a.job.status == Pending && a.job.attempts == 0 < a.job.maxAttempts
  {
  }

  // ----- Under timely reports -----

  /** A waiting job has attempts left. */
  predicate WaitingBelowMaximum(jobs: MemoryJobStore.Jobs) {
    forall id :: id in jobs && Waits(jobs[id]) ==> jobs[id].attempts < jobs[id].maxAttempts
  }

  lemma WaitingBelowStep(cfg: Config, c: Core, a: Action)
    requires Normalised(cfg) && Enabled(cfg, c, a) && TimelyAction(c, a)
    requires Accounted(c) && LeasesHeld(c) && WaitingBelowMaximum(c.jobs)
    ensures WaitingBelowMaximum(Next(cfg, c, a).jobs)
  {
    hide Balanced, DistinctAttempts, Backoff.RetryDelay, ReportEvent;
    if a.Report? {
      assert Holds(c.jobs, c.tickets[a.ticket]) && TicketCounts(c.hist, c.jobs, c.tickets[a.ticket]);
    }
  }

  lemma {:induction false} WaitingAlwaysBelowMaximum(cfg: Config, cs: seq<Core>, acts: seq<Action>, i: nat)
    requires Run(cfg, cs, acts) && Timely(cs, acts) && i < |cs|
    ensures WaitingBelowMaximum(cs[i].jobs)
  {
    if i > 0 {
      hide WaitingBelowMaximum, LeasesHeld, Accounted, Next, Enabled;
      WaitingAlwaysBelowMaximum(cfg, cs, acts, i - 1);
      LeasesAlwaysHeld(cfg, cs, acts, i - 1);
      assert TimelyAction(cs[i - 1], acts[i - 1]);
      WaitingBelowStep(cfg, cs[i - 1], acts[i - 1]);
    } else {
      assert cs[0].jobs == map[];
    }
  }

  /** Under timely reports a job exceeds its maximum exactly when the lease of its last attempt ran out and was taken over. */
  lemma TimelyBoundExceededIff(cfg: Config, cs: seq<Core>, acts: seq<Action>, i: nat, id: string)
    requires Run(cfg, cs, acts) && Timely(cs, acts) && i < |cs| && id in cs[i].jobs
    ensures cs[i].jobs[id].attempts > cs[i].jobs[id].maxAttempts
       <==> exists k :: 0 <= k < i && TakesOverAtMaximum(cs[k], acts[k], id)
  {
    hide Timely;
    BoundExceededIff(cfg, cs, acts, i, id);
    forall k | 0 <= k < i
      ensures ClaimsPastMaximum(cs[k], acts[k], id) <==> TakesOverAtMaximum(cs[k], acts[k], id)
    {
      WaitingAlwaysBelowMaximum(cfg, cs, acts, k);
      assert Enabled(cfg, cs[k], acts[k]);
    }
  }

  // ----- With late reports -----

  predicate PendingUntried(jobs: MemoryJobStore.Jobs) {
    forall id :: id in jobs && jobs[id].status == Pending ==> jobs[id].attempts == 0 < jobs[id].maxAttempts
  }

  lemma {:induction false} PendingAlwaysUntried(cfg: Config, cs: seq<Core>, acts: seq<Action>, i: nat)
    requires Run(cfg, cs, acts) && i < |cs|
    ensures PendingUntried(cs[i].jobs)
  {
    if i > 0 {
      hide Backoff.RetryDelay, ReportEvent;
      PendingAlwaysUntried(cfg, cs, acts, i - 1);
      assert Enabled(cfg, cs[i - 1], acts[i - 1]) && cs[i] == Next(cfg, cs[i - 1], acts[i - 1]);
    }
  }

  lemma WaitingPastStep(cfg: Config, c: Core, a: Action, id: string)
    requires Normalised(cfg) && Enabled(cfg, c, a) && Accounted(c) && PendingUntried(Next(cfg, c, a).jobs)
    requires var jobs := Next(cfg, c, a).jobs; id in jobs && Waits(jobs[id]) && jobs[id].attempts >= jobs[id].maxAttempts
    ensures Next(cfg, c, a).jobs[id].status == Retrying
    ensures SupersededReport(c, a, id) || (id in c.jobs && Waits(c.jobs[id]) && c.jobs[id].attempts >= c.jobs[id].maxAttempts)
  {
    hide DistinctAttempts, Backoff.RetryDelay, ReportEvent, Balanced;
    if a.Report? {
      assert TicketCounts(c.hist, c.jobs, c.tickets[a.ticket]);
    }
  }

  /** In any run a job that waits with its attempts used up is being retried, after a superseded report on it. */
  lemma {:induction false} WaitingPastMaximum(cfg: Config, cs: seq<Core>, acts: seq<Action>, i: nat, id: string)
    requires Run(cfg, cs, acts) && i < |cs| && id in cs[i].jobs
    requires Waits(cs[i].jobs[id]) && cs[i].jobs[id].attempts >= cs[i].jobs[id].maxAttempts
    ensures cs[i].jobs[id].status == Retrying
    ensures exists k :: 0 <= k < i && SupersededReport(cs[k], acts[k], id)
  {
    hide Accounted, Next, Enabled, SupersededReport, PendingUntried;
    RunAt(cfg, cs, acts);
    if i > 0 {
      AlwaysAccounted(cfg, cs, acts, i - 1);
      PendingAlwaysUntried(cfg, cs, acts, i);
      WaitingPastStep(cfg, cs[i - 1], acts[i - 1], id);
      if !SupersededReport(cs[i - 1], acts[i - 1], id) {
        WaitingPastMaximum(cfg, cs, acts, i - 1, id);
      }
    }
  }

  /** So a claim past the maximum takes over an expired lease, or follows a retry that a superseded worker asked for. */
  lemma ClaimsPastMaximumIff(cfg: Config, cs: seq<Core>, acts: seq<Action>, i: nat, id: string)
    requires Run(cfg, cs, acts) && i < |acts|
    ensures ClaimsPastMaximum(cs[i], acts[i], id)
       <==> || TakesOverAtMaximum(cs[i], acts[i], id)
            || (&& acts[i].Take? && acts[i].jobId == id && id in cs[i].jobs && cs[i].jobs[id].status == Retrying
                && cs[i].jobs[id].attempts >= cs[i].jobs[id].maxAttempts
                && exists k :: 0 <= k < i && SupersededReport(cs[k], acts[k], id))
  {
    hide SupersededReport;
    assert Enabled(cfg, cs[i], acts[i]);
    if ClaimsPastMaximum(cs[i], acts[i], id) && cs[i].jobs[id].status != Running {
      WaitingPastMaximum(cfg, cs, acts, i, id);
    }
  }
}
