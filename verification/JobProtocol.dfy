/**
 Workers, leases and the clock as one state machine, shared by both job stores.

 A worker that claims a job holds a private copy of it (a ticket) until it reports or crashes.
 Any number of tickets may be out, on the same job too, and the clock only moves forward.
 */
module JobProtocol {
  import opened Base
  import opened AsyncTypes
  import MemoryJobStore
  import opened JobRunner

  datatype JobEvent =
    | Claimed(jobId: string, attempt: nat, from: JobStatus, at: Time)
    | Done(jobId: string, attempt: nat, at: Time)
    | Retried(jobId: string, attempt: nat, at: Time)
    | Buried(jobId: string, attempt: nat, at: Time)

  /** The job table, the clock, the tickets still out, how many were ever issued, and what happened. */
  datatype Core = Core(jobs: MemoryJobStore.Jobs, clock: Time, tickets: map<nat, Job>, issued: nat, hist: seq<JobEvent>)

  datatype Action =
    | Insert(job: Job)
    | Idle
    | Tick(to: Time)
    | Take(jobId: string, workerID: string)
    | Report(ticket: nat, outcome: Outcome)
    | Crash(ticket: nat)

  predicate Init(c: Core) {
    c.jobs == map[] && c.tickets == map[] && c.issued == 0 && c.hist == []
  }

  predicate Waits(job: Job) {
    job.status == Pending || job.status == Retrying
  }

  /** A job as Queue.Enqueue builds it now. */
  predicate FreshJob(cfg: Config, job: Job, now: Time) {
    job == NewJob(cfg, job.id, job.jobType, job.key, job.payload, now) && job.id != ""
  }

  predicate Enabled(cfg: Config, c: Core, a: Action) {
    match a
    case Insert(job) => FreshJob(cfg, job, c.clock) && job.id !in c.jobs
    case Idle => true
    case Tick(to) => c.clock <= to
    case Take(id, _) => id in c.jobs && ReadyToClaim(c.jobs[id], c.clock)
    case Report(t, _) => t in c.tickets
    case Crash(t) => t in c.tickets
  }

  /** The action names a job or a ticket that exists; an enabled action always does. */
  predicate Meaningful(c: Core, a: Action) {
    match a
    case Take(id, _) => id in c.jobs
    case Report(t, _) => t in c.tickets
    case Crash(t) => t in c.tickets
    case _ => true
  }

  function ReportEvent(copy: Job, outcome: Outcome, now: Time): JobEvent {
    match outcome
    case Succeeded => Done(copy.id, copy.attempts, now)
    case Failed(_) =>
      if copy.attempts >= copy.maxAttempts then Buried(copy.id, copy.attempts, now)
      else Retried(copy.id, copy.attempts, now)
  }

  function Next(cfg: Config, c: Core, a: Action): Core
    requires Meaningful(c, a)
  {
    match a
    case Insert(job) => c.(jobs := c.jobs[job.id := job])
    case Idle => c
    case Tick(to) => c.(clock := to)
    case Take(id, workerID) =>
      var copy := Claim(c.jobs[id], workerID, c.clock, cfg.visibilityTimeout);
      c.(jobs := c.jobs[id := copy],
         tickets := c.tickets[c.issued := copy],
         issued := c.issued + 1,
         hist := c.hist + [Claimed(id, copy.attempts, c.jobs[id].status, c.clock)])
    case Report(t, outcome) =>
      var copy := c.tickets[t];
      c.(jobs := ReportIn(cfg, c.jobs, copy, outcome, c.clock),
         tickets := c.tickets - {t},
         hist := c.hist + [ReportEvent(copy, outcome, c.clock)])
    case Crash(t) => c.(tickets := c.tickets - {t})
  }

  /** Timely reports: a worker reports while its lease lasts, or never. */
  predicate TimelyAction(c: Core, a: Action) {
    a.Report? && a.ticket in c.tickets ==> InLease(c, a.ticket)
  }

  /** The lease of a ticket lasts as long as no other worker may take the job on its account. */
  predicate InLease(c: Core, t: nat)
    requires t in c.tickets
  {
    c.tickets[t].lockedUntil.Some? && c.clock <= c.tickets[t].lockedUntil.value
  }

  /** A run of the protocol: states linked by enabled actions, from an empty table. */
  predicate Run(cfg: Config, cs: seq<Core>, acts: seq<Action>) {
    && Normalised(cfg)
    && |cs| == |acts| + 1
    && Init(cs[0])
    && forall i :: 0 <= i < |acts| ==> Enabled(cfg, cs[i], acts[i]) && cs[i + 1] == Next(cfg, cs[i], acts[i])
  }

  lemma RunAt(cfg: Config, cs: seq<Core>, acts: seq<Action>)
    requires Run(cfg, cs, acts)
    ensures |cs| == |acts| + 1 && Normalised(cfg) && Init(cs[0])
    ensures forall i :: 0 <= i < |acts| ==> Enabled(cfg, cs[i], acts[i]) && cs[i + 1] == Next(cfg, cs[i], acts[i])
  {
    hide Enabled, Next;
  }

  predicate Timely(cs: seq<Core>, acts: seq<Action>)
    requires |cs| == |acts| + 1
  {
    forall i :: 0 <= i < |acts| ==> TimelyAction(cs[i], acts[i])
  }

  // ----- What a history says about one job -----

  function Claims(h: seq<JobEvent>, id: string): nat {
    if h == [] then 0
    else
      var e := h[|h| - 1];
      Claims(h[..|h| - 1], id) + (if e.Claimed? && e.jobId == id then 1 else 0)
  }

  /** Claims that took the job out of `from`; out of Running means its lease had expired. */
  function ClaimsFrom(h: seq<JobEvent>, id: string, from: JobStatus): nat {
    if h == [] then 0
    else
      var e := h[|h| - 1];
      ClaimsFrom(h[..|h| - 1], id, from) + (if e.Claimed? && e.jobId == id && e.from == from then 1 else 0)
  }

  function Reclaims(h: seq<JobEvent>, id: string): nat {
    ClaimsFrom(h, id, Running)
  }

  function Retries(h: seq<JobEvent>, id: string): nat {
    if h == [] then 0
    else
      var e := h[|h| - 1];
      Retries(h[..|h| - 1], id) + (if e.Retried? && e.jobId == id then 1 else 0)
  }

  lemma HistoryGrows(h: seq<JobEvent>, e: JobEvent, id: string)
    ensures Claims(h + [e], id) == Claims(h, id) + (if e.Claimed? && e.jobId == id then 1 else 0)
    ensures forall from ::
              ClaimsFrom(h + [e], id, from) == ClaimsFrom(h, id, from)
                + (if e.Claimed? && e.jobId == id && e.from == from then 1 else 0)
    ensures Retries(h + [e], id) == Retries(h, id) + (if e.Retried? && e.jobId == id then 1 else 0)
  {
  }
}
