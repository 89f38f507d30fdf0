/**
 Attempt accounting. It holds on every interleaving of any number of workers, with late reports, crashes
 and expired leases included.
 */
module AttemptAccounting {
  import opened Base
  import opened AsyncTypes
  import MemoryJobStore
  import opened JobRunner
  import opened JobProtocol

  /** The attempt numbers whose claim ended in a retry report. */
  function RetriedAttempts(h: seq<JobEvent>, id: string): set<nat> {
    if h == [] then {}
    else
      var e := h[|h| - 1];
      RetriedAttempts(h[..|h| - 1], id) + (if e.Retried? && e.jobId == id then {e.attempt} else {})
  }

  lemma RetriedGrows(h: seq<JobEvent>, e: JobEvent, id: string)
    ensures RetriedAttempts(h + [e], id)
         == RetriedAttempts(h, id) + (if e.Retried? && e.jobId == id then {e.attempt} else {})
  {
  }

  /** The books of one job balance against the history. */
  predicate Balanced(h: seq<JobEvent>, job: Job) {
    && job.attempts == Claims(h, job.id)
    && job.attempts == ClaimsFrom(h, job.id, Pending) + ClaimsFrom(h, job.id, Retrying) + Reclaims(h, job.id)
    && ClaimsFrom(h, job.id, Pending) + (if job.status == Pending then 1 else 0) <= 1
    && ClaimsFrom(h, job.id, Retrying) + (if job.status == Retrying then 1 else 0) <= Retries(h, job.id)
    && Retries(h, job.id) == |RetriedAttempts(h, job.id)|
    && (forall a :: a in RetriedAttempts(h, job.id) ==> 1 <= a < job.maxAttempts && a <= job.attempts)
  }

  predicate AllBalanced(h: seq<JobEvent>, jobs: MemoryJobStore.Jobs) {
    forall id :: id in jobs ==> jobs[id].maxAttempts > 0 && Balanced(h, jobs[id])
  }

  /** A ticket carries an attempt number of its job that no retry report has used. */
  predicate TicketCounts(h: seq<JobEvent>, jobs: MemoryJobStore.Jobs, copy: Job) {
    && copy.id in jobs
    && 1 <= copy.attempts <= jobs[copy.id].attempts
    && copy.maxAttempts == jobs[copy.id].maxAttempts
    && copy.attempts !in RetriedAttempts(h, copy.id)
  }

  /** No two tickets on one job carry the same attempt number. */
  predicate DistinctAttempts(tickets: map<nat, Job>) {
    forall t, u :: t in tickets && u in tickets && t != u && tickets[t].id == tickets[u].id ==>
      tickets[t].attempts != tickets[u].attempts
  }

  predicate TicketsInOrder(h: seq<JobEvent>, jobs: MemoryJobStore.Jobs, tickets: map<nat, Job>, issued: nat) {
    && (forall t :: t in tickets ==> t < issued && TicketCounts(h, jobs, tickets[t]))
    && DistinctAttempts(tickets)
  }

  predicate Accounted(c: Core) {
    && MemoryJobStore.Filed(c.jobs)
    && AllBalanced(c.hist, c.jobs)
    && TicketsInOrder(c.hist, c.jobs, c.tickets, c.issued)
    && (forall i :: 0 <= i < |c.hist| ==> c.hist[i].jobId in c.jobs)
  }

  lemma UntouchedJob(h: seq<JobEvent>, id: string)
    requires forall i :: 0 <= i < |h| ==> h[i].jobId != id
    ensures Claims(h, id) == 0 && Retries(h, id) == 0 && RetriedAttempts(h, id) == {}
    ensures forall from :: ClaimsFrom(h, id, from) == 0
  {
  }

  /** An event about another job leaves a job's books alone. */
  lemma OtherJobsBooks(h: seq<JobEvent>, e: JobEvent, job: Job)
    requires Balanced(h, job) && e.jobId != job.id
    ensures Balanced(h + [e], job)
    ensures RetriedAttempts(h + [e], job.id) == RetriedAttempts(h, job.id)
  {
  }

  lemma BalancedClaim(h: seq<JobEvent>, job: Job, workerID: string, now: Time, timeout: Time)
    requires Balanced(h, job) && ReadyToClaim(job, now)
    ensures var copy := Claim(job, workerID, now, timeout); var e := Claimed(job.id, copy.attempts, job.status, now);
            && Balanced(h + [e], copy)
            && RetriedAttempts(h + [e], job.id) == RetriedAttempts(h, job.id)
  {
    var e := Claimed(job.id, job.attempts + 1, job.status, now);
    HistoryGrows(h, e, job.id);
    RetriedGrows(h, e, job.id);
  }

  /** A report by a ticket with an unused attempt number, however late it comes. */
  lemma BalancedReport(cfg: Config, h: seq<JobEvent>, job: Job, copy: Job, outcome: Outcome, now: Time)
    requires Balanced(h, job) && copy.id == job.id && copy.maxAttempts == job.maxAttempts
    requires 1 <= copy.attempts <= job.attempts && copy.attempts !in RetriedAttempts(h, job.id)
    ensures Balanced(h + [ReportEvent(copy, outcome, now)], ReportOn(cfg, job, copy, outcome, now))
  {
    var e := ReportEvent(copy, outcome, now);
    HistoryGrows(h, e, job.id);
    RetriedGrows(h, e, job.id);
  }

  /** Replacing one job and appending one event about it keeps every other job's books. */
  lemma BooksAfterUpdate(h: seq<JobEvent>, jobs: MemoryJobStore.Jobs, e: JobEvent, job: Job)
    requires MemoryJobStore.Filed(jobs) && AllBalanced(h, jobs) && job.id in jobs && e.jobId == job.id
    requires job.maxAttempts > 0 && Balanced(h + [e], job)
    ensures AllBalanced(h + [e], jobs[job.id := job])
  {
    var jobs' := jobs[job.id := job];
    forall id | id in jobs'
      ensures jobs'[id].maxAttempts > 0 && Balanced(h + [e], jobs'[id])
    {
      if id != job.id {
        OtherJobsBooks(h, e, jobs[id]);
      }
    }
  }

  lemma AccountedTake(cfg: Config, c: Core, a: Action)
    requires Accounted(c) && a.Take? && Enabled(cfg, c, a)
    ensures Accounted(Next(cfg, c, a))
  {
    var job := c.jobs[a.jobId];
    var copy := Claim(job, a.workerID, c.clock, cfg.visibilityTimeout);
    var e := Claimed(job.id, copy.attempts, job.status, c.clock);
    BalancedClaim(c.hist, job, a.workerID, c.clock, cfg.visibilityTimeout);
    BooksAfterUpdate(c.hist, c.jobs, e, copy);
    TicketsAfterTake(c, e, copy);
  }

  lemma TicketsAfterTake(c: Core, e: JobEvent, copy: Job)
    requires MemoryJobStore.Filed(c.jobs) && TicketsInOrder(c.hist, c.jobs, c.tickets, c.issued)
    requires copy.id in c.jobs && e.Claimed? && e.jobId == copy.id
    requires copy.attempts == c.jobs[copy.id].attempts + 1 && copy.maxAttempts == c.jobs[copy.id].maxAttempts
    requires copy.attempts !in RetriedAttempts(c.hist, copy.id)
    ensures TicketsInOrder(c.hist + [e], c.jobs[copy.id := copy], c.tickets[c.issued := copy], c.issued + 1)
  {
  }

  lemma BooksAfterReport(cfg: Config, c: Core, copy: Job, outcome: Outcome)
    requires MemoryJobStore.Filed(c.jobs) && AllBalanced(c.hist, c.jobs) && TicketCounts(c.hist, c.jobs, copy)
    ensures AllBalanced(c.hist + [ReportEvent(copy, outcome, c.clock)], ReportIn(cfg, c.jobs, copy, outcome, c.clock))
  {
    var e := ReportEvent(copy, outcome, c.clock);
    BalancedReport(cfg, c.hist, c.jobs[copy.id], copy, outcome, c.clock);
    BooksAfterUpdate(c.hist, c.jobs, e, ReportOn(cfg, c.jobs[copy.id], copy, outcome, c.clock));
  }

  lemma AccountedReport(cfg: Config, c: Core, a: Action)
    requires Accounted(c) && a.Report? && Enabled(cfg, c, a)
    ensures Accounted(Next(cfg, c, a))
  {
    hide Balanced, DistinctAttempts, RetriedAttempts;
    var copy := c.tickets[a.ticket];
    assert TicketCounts(c.hist, c.jobs, copy);
    BooksAfterReport(cfg, c, copy, a.outcome);
    TicketsAfterReport(c, a.ticket, ReportEvent(copy, a.outcome, c.clock),
                       ReportOn(cfg, c.jobs[copy.id], copy, a.outcome, c.clock));
  }

  lemma TicketsAfterReport(c: Core, t: nat, e: JobEvent, job: Job)
    requires MemoryJobStore.Filed(c.jobs) && TicketsInOrder(c.hist, c.jobs, c.tickets, c.issued)
    requires t in c.tickets && job.id == c.tickets[t].id == e.jobId && job.id in c.jobs
    requires e.Retried? ==> e.attempt == c.tickets[t].attempts
    requires job.attempts == c.jobs[job.id].attempts && job.maxAttempts == c.jobs[job.id].maxAttempts
    ensures TicketsInOrder(c.hist + [e], c.jobs[job.id := job], c.tickets - {t}, c.issued)
  {
  }

  lemma BalancedInsert(cfg: Config, h: seq<JobEvent>, job: Job, now: Time)
    requires FreshJob(cfg, job, now) && forall i :: 0 <= i < |h| ==> h[i].jobId != job.id
    ensures Balanced(h, job)
  {
    UntouchedJob(h, job.id);
  }

  lemma AccountedInsert(cfg: Config, c: Core, a: Action)
    requires Normalised(cfg) && Accounted(c) && a.Insert? && Enabled(cfg, c, a)
    ensures Accounted(Next(cfg, c, a))
  {
    hide Balanced, RetriedAttempts;
    BalancedInsert(cfg, c.hist, a.job, c.clock);
  }

  lemma AccountedStep(cfg: Config, c: Core, a: Action)
    requires Normalised(cfg) && Accounted(c) && Enabled(cfg, c, a)
    ensures Accounted(Next(cfg, c, a))
  {
    hide Balanced, TicketCounts, RetriedAttempts;
    match a
    case Insert(_) => AccountedInsert(cfg, c, a);
    case Idle =>
    case Tick(_) =>
    case Take(_, _) => AccountedTake(cfg, c, a);
    case Report(_, _) => AccountedReport(cfg, c, a);
    case Crash(_) =>
  }

  lemma {:induction false} AlwaysAccounted(cfg: Config, cs: seq<Core>, acts: seq<Action>, i: nat)
    requires Run(cfg, cs, acts) && i < |cs|
    ensures Accounted(cs[i])
  {
    if i > 0 {
      AlwaysAccounted(cfg, cs, acts, i - 1);
      AccountedStep(cfg, cs[i - 1], acts[i - 1]);
    }
  }

  /** A set of numbers from 1 up to, and not including, `bound` has fewer than `bound` members. */
  lemma {:induction false} BelowBound(s: set<nat>, bound: int)
    requires bound > 0 && forall a :: a in s ==> 1 <= a < bound
    ensures |s| <= bound - 1
  {
    if bound == 1 {
      assert s == {};
    } else {
      var rest := s - {bound - 1};
      BelowBound(rest, bound - 1);
      assert |s| <= |rest| + 1 by {
        if bound - 1 in s {
          assert s == rest + {bound - 1};
        } else {
          assert s == rest;
        }
      }
    }
  }

  /** The accounting law: every claim is the first one, answers a retry report, or takes over an expired lease. */
  lemma AttemptsAreAccountedFor(cfg: Config, cs: seq<Core>, acts: seq<Action>, i: nat, id: string)
    requires Run(cfg, cs, acts) && i < |cs| && id in cs[i].jobs
    ensures var job := cs[i].jobs[id]; var h := cs[i].hist;
            && job.attempts == Claims(h, id)
            && Claims(h, id) <= 1 + Retries(h, id) + Reclaims(h, id)
            && Retries(h, id) <= job.maxAttempts - 1
            && job.attempts <= job.maxAttempts + Reclaims(h, id)
  {
    AlwaysAccounted(cfg, cs, acts, i);
    var job := cs[i].jobs[id];
    BelowBound(RetriedAttempts(cs[i].hist, id), job.maxAttempts);
  }
}
