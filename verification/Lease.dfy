/**
 What timely reports buy: one worker at a time inside the lease of a job, and final states that stay final.
 The store itself checks neither, so each result has the exact step that breaks it and a run in which it does.
 */
module LeaseProtocol {
  import opened Base
  import opened AsyncTypes
  import Backoff
  import MemoryJobStore
  import opened JobRunner
  import opened JobProtocol
  import opened AttemptAccounting

  /** A running job always carries the end of its lease, and only a running job does. */
  predicate Locked(job: Job) {
    job.status == Running <==> job.lockedUntil.Some?
  }

  predicate AllLocked(jobs: MemoryJobStore.Jobs) {
    forall id :: id in jobs ==> Locked(jobs[id])
  }

  /** The job is still the one this copy claimed: running, same attempt, same lease. */
  predicate Holds(jobs: MemoryJobStore.Jobs, copy: Job) {
    && copy.id in jobs
    && jobs[copy.id].status == Running
    && jobs[copy.id].attempts == copy.attempts
    && jobs[copy.id].lockedUntil == copy.lockedUntil
  }

  predicate LeasesHeld(c: Core) {
    forall t :: t in c.tickets ==> c.tickets[t].lockedUntil.Some? && (InLease(c, t) ==> Holds(c.jobs, c.tickets[t]))
  }

  lemma LockedStep(cfg: Config, c: Core, a: Action)
    requires Enabled(cfg, c, a) && AllLocked(c.jobs)
    ensures AllLocked(Next(cfg, c, a).jobs)
  {
  }

  /** Running and holding a lease end coincide in every run, late reports included. */
  lemma {:induction false} AlwaysLocked(cfg: Config, cs: seq<Core>, acts: seq<Action>, i: nat)
    requires Run(cfg, cs, acts) && i < |cs|
    ensures AllLocked(cs[i].jobs)
  {
    if i > 0 {
      AlwaysLocked(cfg, cs, acts, i - 1);
      LockedStep(cfg, cs[i - 1], acts[i - 1]);
    }
  }

  /** Two tickets inside their leases are on different jobs. */
  lemma ExclusiveLease(c: Core, t: nat, u: nat)
    requires DistinctAttempts(c.tickets) && LeasesHeld(c)
    requires t in c.tickets && u in c.tickets && t != u && InLease(c, t) && InLease(c, u)
    ensures c.tickets[t].id != c.tickets[u].id
  {
  }

  lemma LeasesAfterTake(cfg: Config, c: Core, a: Action)
    requires a.Take? && Enabled(cfg, c, a) && MemoryJobStore.Filed(c.jobs) && LeasesHeld(c)
    ensures LeasesHeld(Next(cfg, c, a))
  {
  }

  lemma LeasesAfterReport(cfg: Config, c: Core, a: Action)
    requires a.Report? && Enabled(cfg, c, a) && TimelyAction(c, a)
    requires DistinctAttempts(c.tickets) && LeasesHeld(c)
    ensures LeasesHeld(Next(cfg, c, a))
  {
    hide ReportOn, ReportEvent;
    var c' := Next(cfg, c, a);
    forall t | t in c'.tickets
      ensures c'.tickets[t].lockedUntil.Some? && (InLease(c', t) ==> Holds(c'.jobs, c'.tickets[t]))
    {
      if InLease(c', t) {
        ExclusiveLease(c, t, a.ticket);
        assert Holds(c.jobs, c.tickets[t]);
      }
    }
  }

  lemma LeasesStep(cfg: Config, c: Core, a: Action)
    requires Enabled(cfg, c, a) && TimelyAction(c, a) && Accounted(c) && LeasesHeld(c)
    ensures LeasesHeld(Next(cfg, c, a))
  {
    hide Balanced, TicketCounts;
    match a
    case Insert(_) =>
    case Idle =>
    case Tick(_) => LeasesAfterTick(cfg, c, a);
    case Take(_, _) => LeasesAfterTake(cfg, c, a);
    case Report(_, _) => LeasesAfterReport(cfg, c, a);
    case Crash(_) =>
  }

  lemma LeasesAfterTick(cfg: Config, c: Core, a: Action)
    requires a.Tick? && Enabled(cfg, c, a) && LeasesHeld(c)
    ensures LeasesHeld(Next(cfg, c, a))
  {
  }

  lemma {:induction false} LeasesAlwaysHeld(cfg: Config, cs: seq<Core>, acts: seq<Action>, i: nat)
    requires Run(cfg, cs, acts) && Timely(cs, acts) && i < |cs|
    ensures LeasesHeld(cs[i]) && Accounted(cs[i])
  {
    AlwaysAccounted(cfg, cs, acts, i);
    if i > 0 {
      LeasesAlwaysHeld(cfg, cs, acts, i - 1);
      LeasesStep(cfg, cs[i - 1], acts[i - 1]);
    }
  }

  /** Mutual exclusion: never two workers inside their leases on one job. */
  lemma OneWorkerInsideLease(cfg: Config, cs: seq<Core>, acts: seq<Action>, i: nat, t: nat, u: nat)
    requires Run(cfg, cs, acts) && Timely(cs, acts) && i < |cs|
    requires t in cs[i].tickets && u in cs[i].tickets && InLease(cs[i], t) && InLease(cs[i], u)
    requires cs[i].tickets[t].id == cs[i].tickets[u].id
    ensures t == u
  {
    LeasesAlwaysHeld(cfg, cs, acts, i);
    if t != u {
      ExclusiveLease(cs[i], t, u);
    }
  }

  /** Every report meets the job still running under the reporter's own attempt and lease. */
  lemma ReportMeetsOwnAttempt(cfg: Config, cs: seq<Core>, acts: seq<Action>, i: nat)
    requires Run(cfg, cs, acts) && Timely(cs, acts) && i < |acts| && acts[i].Report?
    ensures acts[i].ticket in cs[i].tickets && Holds(cs[i].jobs, cs[i].tickets[acts[i].ticket])
  {
    LeasesAlwaysHeld(cfg, cs, acts, i);
    assert Enabled(cfg, cs[i], acts[i]) && TimelyAction(cs[i], acts[i]);
  }

  // ----- Exactly when leases survive a step -----

  /** Another worker than the one reporting is inside its lease on the job reported on. */
  predicate ReportsBesideHolder(c: Core, a: Action) {
    && a.Report? && a.ticket in c.tickets
    && exists u :: u in c.tickets && u != a.ticket && c.tickets[u].id == c.tickets[a.ticket].id && InLease(c, u)
  }

  lemma HolderUnseated(cfg: Config, c: Core, a: Action)
    requires Enabled(cfg, c, a) && Accounted(c) && LeasesHeld(c) && ReportsBesideHolder(c, a)
    ensures !LeasesHeld(Next(cfg, c, a))
  {
    hide Balanced, TicketCounts, ReportEvent;
    var u :| u in c.tickets && u != a.ticket && c.tickets[u].id == c.tickets[a.ticket].id && InLease(c, u);
    var c' := Next(cfg, c, a);
    assert Holds(c.jobs, c.tickets[u]);
    assert u in c'.tickets && InLease(c', u) && !Holds(c'.jobs, c'.tickets[u]);
  }

  lemma HolderKept(cfg: Config, c: Core, a: Action)
    requires a.Report? && Enabled(cfg, c, a) && LeasesHeld(c) && !ReportsBesideHolder(c, a)
    ensures LeasesHeld(Next(cfg, c, a))
  {
    hide ReportOn, ReportEvent;
    var c' := Next(cfg, c, a);
    forall t | t in c'.tickets
      ensures c'.tickets[t].lockedUntil.Some? && (InLease(c', t) ==> Holds(c'.jobs, c'.tickets[t]))
    {
      if InLease(c', t) {
        assert InLease(c, t) && Holds(c.jobs, c.tickets[t]);
      }
    }
  }

  /** A step takes its lease from a worker exactly when another worker reports on the job meanwhile. */
  lemma LeasesKeptIff(cfg: Config, c: Core, a: Action)
    requires Enabled(cfg, c, a) && Accounted(c) && LeasesHeld(c)
    ensures LeasesHeld(Next(cfg, c, a)) <==> !ReportsBesideHolder(c, a)
  {
    hide Accounted, LeasesHeld, ReportsBesideHolder, Next;
    if ReportsBesideHolder(c, a) {
      HolderUnseated(cfg, c, a);
    } else if a.Report? {
      HolderKept(cfg, c, a);
    } else {
      LeasesStep(cfg, c, a);
    }
  }

  predicate Final(job: Job) {
    job.status == Completed || job.status == DeadLetter
  }

  lemma FinalStep(cfg: Config, c: Core, a: Action, id: string)
    requires Enabled(cfg, c, a) && TimelyAction(c, a) && MemoryJobStore.Filed(c.jobs) && LeasesHeld(c)
    requires id in c.jobs && Final(c.jobs[id])
    ensures id in Next(cfg, c, a).jobs && Next(cfg, c, a).jobs[id] == c.jobs[id]
  {
  }

  /** A completed or dead-lettered job is never touched again. */
  lemma {:induction false} FinalForever(cfg: Config, cs: seq<Core>, acts: seq<Action>, i: nat, j: nat, id: string)
    requires Run(cfg, cs, acts) && Timely(cs, acts) && i <= j < |cs|
    requires id in cs[i].jobs && Final(cs[i].jobs[id])
    ensures id in cs[j].jobs && cs[j].jobs[id] == cs[i].jobs[id]
    decreases j
  {
    if i < j {
      FinalForever(cfg, cs, acts, i, j - 1, id);
      LeasesAlwaysHeld(cfg, cs, acts, j - 1);
      assert TimelyAction(cs[j - 1], acts[j - 1]);
      FinalStep(cfg, cs[j - 1], acts[j - 1], id);
    }
  }

  /**
   Without that hypothesis, a step takes a job out of Completed exactly when a worker holding a copy of it
   reports a failure, and out of DeadLetter exactly when one reports success or a failure before its last attempt.
   */
  lemma FinalLeftIff(cfg: Config, c: Core, a: Action, id: string)
    requires Enabled(cfg, c, a) && MemoryJobStore.Filed(c.jobs) && id in c.jobs && Final(c.jobs[id])
    ensures Next(cfg, c, a).jobs[id].status != c.jobs[id].status
       <==> && a.Report?
            && c.tickets[a.ticket].id == id
            && (if c.jobs[id].status == Completed then a.outcome.Failed?
                else a.outcome.Succeeded? || c.tickets[a.ticket].attempts < c.tickets[a.ticket].maxAttempts)
  {
  }

  // ----- A run with a crash and a late report -----

  function SmallConfig(maxAttempts: int): Config {
    Config(1, maxAttempts, 10, 1, 1, true, 1)
  }

  function SmallJob(maxAttempts: int): Job {
    NewJob(SmallConfig(maxAttempts), "job_1", "close_room_sessions", "k", Scheduled(0), 0)
  }

  /** The first worker crashes or stalls, the second claims the job after the lease and completes it. */
  function Plan(maxAttempts: int): seq<Action> {
    [Insert(SmallJob(maxAttempts)), Take("job_1", "w1"), Tick(11), Take("job_1", "w2"),
     Report(1, Succeeded), Report(0, Failed("late"))]
  }

  lemma PlayFirstFour(maxAttempts: int) returns (cs: seq<Core>)
    requires maxAttempts > 0
    ensures Run(SmallConfig(maxAttempts), cs, Plan(maxAttempts)[..4])
    ensures var first := Claim(SmallJob(maxAttempts), "w1", 0, 10); var second := Claim(first, "w2", 11, 10);
            && cs[4].jobs == map["job_1" := second]
            && cs[4].tickets == map[0 := first, 1 := second]
            && cs[4].clock == 11 && cs[4].issued == 2
  {
    var cfg := SmallConfig(maxAttempts);
    var acts := Plan(maxAttempts);
    var c0 := Core(map[], 0, map[], 0, []);
    var c1 := Next(cfg, c0, acts[0]);
    var c2 := Next(cfg, c1, acts[1]);
    var c3 := Next(cfg, c2, acts[2]);
    var c4 := Next(cfg, c3, acts[3]);
    cs := [c0, c1, c2, c3, c4];
  }

  /** Attempts can exceed the maximum: a job allowed one attempt is claimed again once its lease runs out. */
  lemma NaiveAttemptBoundFails() returns (cs: seq<Core>)
    ensures Run(SmallConfig(1), cs, Plan(1)[..4]) && "job_1" in cs[4].jobs
    ensures cs[4].jobs["job_1"].attempts == 2 && cs[4].jobs["job_1"].maxAttempts == 1
  {
    cs := PlayFirstFour(1);
  }

  /** The first worker reports late, and the job is claimed a third time while the second is still inside its lease. */
  function SharedLeasePlan(): seq<Action> {
    Plan(5)[..4] + [Report(0, Failed("late")), Tick(13), Take("job_1", "w3")]
  }

  lemma ShortDelay()
    ensures Backoff.RetryDelay(1, 1, 1) == 1
  {
    assert Backoff.Pow2(0) == 1;
  }

  /** Two workers inside their leases on one job, and the job is not the one the earlier of them would report on. */
  lemma LateReportSharesLease() returns (cs: seq<Core>)
    ensures Run(SmallConfig(5), cs, SharedLeasePlan()) && !Timely(cs, SharedLeasePlan())
    ensures var c := cs[7];
            && 1 in c.tickets && 2 in c.tickets && c.tickets[1].id == c.tickets[2].id
            && InLease(c, 1) && InLease(c, 2) && !Holds(c.jobs, c.tickets[1])
  {
    var cfg := SmallConfig(5);
    var acts := SharedLeasePlan();
    var played := PlayFirstFour(5);
    hide Backoff.RetryDelay;
    assert Backoff.RetryDelay(1, 1, 1) == 1 by { ShortDelay(); }
    var c5 := Next(cfg, played[4], acts[4]);
    var c6 := Next(cfg, c5, acts[5]);
    var c7 := Next(cfg, c6, acts[6]);
    cs := played + [c5, c6, c7];
    forall i | 0 <= i < |acts|
      ensures Enabled(cfg, cs[i], acts[i]) && cs[i + 1] == Next(cfg, cs[i], acts[i])
    {
      if i < 4 {
        assert acts[i] == Plan(5)[..4][i];
      }
    }
    assert !TimelyAction(cs[4], acts[4]);
  }

  /** A failure reported after the lease ran out takes the job out of Completed. */
  lemma LateReportRevivesCompletedJob() returns (cs: seq<Core>)
    ensures Run(SmallConfig(5), cs, Plan(5)) && !Timely(cs, Plan(5))
    ensures "job_1" in cs[5].jobs && cs[5].jobs["job_1"].status == Completed
    ensures "job_1" in cs[6].jobs && cs[6].jobs["job_1"].status == Retrying
  {
    var cfg := SmallConfig(5);
    var acts := Plan(5);
    var played := PlayFirstFour(5);
    var c5 := Next(cfg, played[4], acts[4]);
    var c6 := Next(cfg, c5, acts[5]);
    cs := played + [c5, c6];
    forall i | 0 <= i < |acts|
      ensures Enabled(cfg, cs[i], acts[i]) && cs[i + 1] == Next(cfg, cs[i], acts[i])
    {
      if i < 4 {
        assert acts[i] == acts[..4][i];
      }
    }
    assert !TimelyAction(cs[5], acts[5]);
  }
}
