/**
 Runs that go as badly as the laws allow: one job that fails, and then stalls, as often as it can. They show that
 the bound on attempts is tight and that the bound on waiting needs every retry to wait.
 */
module WorstRuns {
  import opened Base
  import opened AsyncTypes
  import opened Backoff
  import JobRunner
  import opened JobProtocol
  import opened MemoryQueue
  import opened MongoQueue
  import opened NoStarvation

  const ID := "failing"

  function Failing(cfg: Config): Job {
    NewJob(cfg, ID, "t", "k1", Scheduled(0), 0)
  }

  /** The queue holds this job only, and the worker that claimed it last has just claimed it for the n-th time. */
  predicate JustClaimed(cfg: Config, c: Core, n: nat) {
    && c.jobs.Keys == {ID} && c.clock >= 1
    && var job := c.jobs[ID];
       && job.id == ID && job.key == "k1" && job.status == Running && job.attempts == n
       && job.maxAttempts == cfg.jobMaxAttempts && job.createdAt == 0 && job.runAfter <= c.clock
       && job.lockedUntil == Some(c.clock + cfg.visibilityTimeout)
       && c.issued >= 1 && c.issued - 1 in c.tickets && c.tickets[c.issued - 1] == job
  }

  /** A timely run of the MongoDB queue that ends there after so many takeovers. */
  predicate EndsClaimed(cfg: Config, cs: seq<Core>, sas: seq<StoreAction>, n: nat, takeovers: nat) {
    && TimelyMongoRun(cfg, cs, sas) && |cs| == |sas| + 1
    && JustClaimed(cfg, cs[|sas|], n) && Reclaims(cs[|sas|].hist, ID) == takeovers
  }

  /** One more offered and timely action at the end of a run. */
  lemma Play(cfg: Config, cs: seq<Core>, sas: seq<StoreAction>, sa: StoreAction) returns (cs': seq<Core>, sas': seq<StoreAction>)
    requires TimelyMongoRun(cfg, cs, sas) && |cs| == |sas| + 1
    requires MongoOffered(cfg, cs[|sas|], sa) && TimelyAction(cs[|sas|], MongoAction(cs[|sas|], sa))
    ensures TimelyMongoRun(cfg, cs', sas') && |cs'| == |sas'| + 1 && sas' == sas + [sa] && cs' == cs + [cs'[|sas'|]]
    ensures cs'[|sas'|] == MongoNext(cfg, cs[|sas|], sa)
  {
    hide TimelyMongoRun, MongoOffered, TimelyAction, MongoNext, MongoAction;
    TimelyRunExtends(cfg, cs, sas, sa);
    cs', sas' := cs + [MongoNext(cfg, cs[|sas|], sa)], sas + [sa];
  }

  /** The job is claimed, by a worker with a ticket, one attempt after the one before. */
  lemma ClaimIt(cfg: Config, c: Core, n: nat) returns (c': Core)
    requires cfg.visibilityTimeout > 0 && c.jobs.Keys == {ID} && c.clock >= 1
    requires var job := c.jobs[ID];
             && job.id == ID && job.key == "k1" && ReadyToClaim(job, c.clock) && job.attempts == n
             && job.maxAttempts == cfg.jobMaxAttempts && job.createdAt == 0
    ensures MongoOffered(cfg, c, Other(Take(ID, "w"))) && c' == MongoNext(cfg, c, Other(Take(ID, "w")))
    ensures JustClaimed(cfg, c', n + 1)
    ensures Reclaims(c'.hist, ID) == Reclaims(c.hist, ID) + (if c.jobs[ID].status == Running then 1 else 0)
  {
    hide RetryDelay, Claims, ClaimsFrom, Retries, Reclaims;
    ReclaimsGrow(c.hist, Claimed(ID, n + 1, c.jobs[ID].status, c.clock), ID);
    c' := MongoNext(cfg, c, Other(Take(ID, "w")));
  }

  lemma ReclaimsGrow(h: seq<JobEvent>, e: JobEvent, id: string)
    ensures Reclaims(h + [e], id) == Reclaims(h, id) + (if e.Claimed? && e.jobId == id && e.from == Running then 1 else 0)
  {
    HistoryGrows(h, e, id);
  }

  lemma FirstClaim(cfg: Config) returns (cs: seq<Core>, sas: seq<StoreAction>)
    requires Normalised(cfg)
    ensures EndsClaimed(cfg, cs, sas, 1, 0)
  {
    cs, sas := [Core(map[], 0, map[], 0, [])], [];
    cs, sas := Play(cfg, cs, sas, Enqueue(Failing(cfg)));
    cs, sas := Play(cfg, cs, sas, Other(Tick(1)));
    hide MongoOffered, MongoNext, TimelyMongoRun;
    var c := ClaimIt(cfg, cs[|sas|], 0);
    cs, sas := Play(cfg, cs, sas, Other(Take(ID, "w")));
  }

  /** The attempt fails, the worker says so at once, and the job is claimed again when its delay is over. */
  lemma FailAndRetry(cfg: Config, cs: seq<Core>, sas: seq<StoreAction>, n: nat, takeovers: nat)
      returns (cs': seq<Core>, sas': seq<StoreAction>)
    requires cfg.visibilityTimeout > 0 && EndsClaimed(cfg, cs, sas, n, takeovers) && 1 <= n < cfg.jobMaxAttempts
    ensures EndsClaimed(cfg, cs', sas', n + 1, takeovers)
  {
    hide TimelyMongoRun, RetryDelay;
    var c := cs[|sas|];
    var delay := RetryDelay(n, cfg.retryBaseDelay, cfg.retryMaxDelay);
    ReclaimsGrow(c.hist, Retried(ID, n, c.clock), ID);
    cs', sas' := Play(cfg, cs, sas, Other(Report(c.issued - 1, JobRunner.Failed("no"))));
    cs', sas' := Play(cfg, cs', sas', Other(Tick(if delay > 0 then c.clock + delay else c.clock)));
    hide MongoOffered, MongoNext;
    var claimed := ClaimIt(cfg, cs'[|sas'|], n);
    cs', sas' := Play(cfg, cs', sas', Other(Take(ID, "w")));
  }

  /** The worker never reports, and the job is claimed again when its lease is over. */
  lemma StallAndTakeOver(cfg: Config, cs: seq<Core>, sas: seq<StoreAction>, n: nat, takeovers: nat)
      returns (cs': seq<Core>, sas': seq<StoreAction>)
    requires cfg.visibilityTimeout > 0 && EndsClaimed(cfg, cs, sas, n, takeovers)
    ensures EndsClaimed(cfg, cs', sas', n + 1, takeovers + 1)
  {
    hide TimelyMongoRun;
    var c := cs[|sas|];
    cs', sas' := Play(cfg, cs, sas, Other(Tick(c.clock + cfg.visibilityTimeout + 1)));
    hide MongoOffered, MongoNext;
    var claimed := ClaimIt(cfg, cs'[|sas'|], n);
    cs', sas' := Play(cfg, cs', sas', Other(Take(ID, "w")));
  }

  lemma {:induction false} FailUpTo(cfg: Config, n: nat) returns (cs: seq<Core>, sas: seq<StoreAction>)
    requires Normalised(cfg) && 1 <= n <= cfg.jobMaxAttempts
    ensures EndsClaimed(cfg, cs, sas, n, 0)
  {
    hide EndsClaimed;
    if n == 1 {
      cs, sas := FirstClaim(cfg);
    } else {
      cs, sas := FailUpTo(cfg, n - 1);
      cs, sas := FailAndRetry(cfg, cs, sas, n - 1, 0);
    }
  }

  lemma {:induction false} FailThenStall(cfg: Config, stalls: nat) returns (cs: seq<Core>, sas: seq<StoreAction>)
    requires Normalised(cfg)
    ensures EndsClaimed(cfg, cs, sas, cfg.jobMaxAttempts + stalls, stalls)
  {
    hide EndsClaimed;
    if stalls == 0 {
      cs, sas := FailUpTo(cfg, cfg.jobMaxAttempts);
    } else {
      cs, sas := FailThenStall(cfg, stalls - 1);
      cs, sas := StallAndTakeOver(cfg, cs, sas, cfg.jobMaxAttempts + stalls - 1, stalls - 1);
    }
  }

  /**
   The bound on attempts is met: under every configuration, for any number of takeovers, some timely run takes a job
   to exactly its maximum and those takeovers.
   */
  lemma AttemptBoundIsTight(cfg: Config, takeovers: nat) returns (cs: seq<Core>, acts: seq<Action>)
    requires Normalised(cfg)
    ensures Run(cfg, cs, acts) && Timely(cs, acts) && ID in cs[|acts|].jobs
    ensures var c := cs[|acts|];
            && Reclaims(c.hist, ID) == takeovers
            && c.jobs[ID].attempts == c.jobs[ID].maxAttempts + takeovers == cfg.jobMaxAttempts + takeovers
  {
    var sas;
    cs, sas := FailThenStall(cfg, takeovers);
    MongoRunIsRun(cfg, cs, sas);
    acts := MongoActions(cs, sas);
  }

  // ----- Waiting -----

  function Due(cfg: Config, now: Time): Job {
    NewJob(cfg, "due", "t", "k2", Scheduled(0), now)
  }

  /** A failed attempt whose retry does not wait goes in front of a job that is due, and is claimed before it. */
  lemma RetryOvertakes(cfg: Config, c: Core, n: nat)
    requires Normalised(cfg) && JustClaimed(cfg, c, n) && 1 <= n < cfg.jobMaxAttempts
    requires RetryDelay(n, cfg.retryBaseDelay, cfg.retryMaxDelay) <= 0
    ensures var sa1, sa2 := Enqueue(Due(cfg, c.clock)), Other(Report(c.issued - 1, JobRunner.Failed("no")));
            var sa3 := Other(Take(ID, "w"));
            MongoOffered(cfg, c, sa1) && TimelyAction(c, MongoAction(c, sa1)) &&
            var c1 := MongoNext(cfg, c, sa1);
            MongoOffered(cfg, c1, sa2) && TimelyAction(c1, MongoAction(c1, sa2)) &&
            var c2 := MongoNext(cfg, c1, sa2);
            && MongoOffered(cfg, c2, sa3) && TimelyAction(c2, MongoAction(c2, sa3)) && !TakesOver(c1, sa2) && !TakesOver(c2, sa3)
            && "due" in c1.jobs && ReadyToClaim(c1.jobs["due"], c1.clock) && Ahead(c1.jobs, "due") == {}
  {
    hide RetryDelay;
  }

  /** For every attempt before the last whose delay is not positive, a timely run whose ready job is passed over. */
  lemma ReadyJobIsPassedOver(cfg: Config, n: nat) returns (cs: seq<Core>, sas: seq<StoreAction>, start: nat)
    requires Normalised(cfg) && 1 <= n < cfg.jobMaxAttempts
    requires RetryDelay(n, cfg.retryBaseDelay, cfg.retryMaxDelay) <= 0
    ensures TurnHasCome(cfg, cs, sas, start, |sas|, "due") && !ClaimedBetween(sas, start, |sas|, "due")
  {
    hide RetryDelay, TimelyMongoRun, MongoOffered, MongoNext, TimelyAction;
    cs, sas := FailUpTo(cfg, n);
    var c := cs[|sas|];
    RetryOvertakes(cfg, c, n);
    cs, sas := Play(cfg, cs, sas, Enqueue(Due(cfg, c.clock)));
    start := |sas|;
    cs, sas := Play(cfg, cs, sas, Other(Report(c.issued - 1, JobRunner.Failed("no"))));
    assert ClaimsIn(sas, start, start + 1) == 0 && TakeoversIn(cs, sas, start, start + 1) == 0;
    cs, sas := Play(cfg, cs, sas, Other(Take(ID, "w")));
    assert ClaimsIn(sas, start, start + 1) == 0 && TakeoversIn(cs, sas, start, start + 1) == 0;
  }

  /**
   Exactly when the queue starves no one: in every timely run each ready job is claimed by its turn, whatever is
   enqueued meanwhile without a tie, if and only if every retry waits.
   */
  lemma NobodyStarvesIff(cfg: Config)
    requires Normalised(cfg)
    ensures RetriesWait(cfg)
       <==> forall cs: seq<Core>, sas: seq<StoreAction>, start: nat, stop: nat, id: string ::
              TurnHasCome(cfg, cs, sas, start, stop, id) ==> ClaimedBetween(sas, start, stop, id)
  {
    hide TurnHasCome, ClaimedBetween;
    if RetriesWait(cfg) {
      forall cs: seq<Core>, sas: seq<StoreAction>, start: nat, stop: nat, id: string
        | TurnHasCome(cfg, cs, sas, start, stop, id)
        ensures ClaimedBetween(sas, start, stop, id)
      {
        ReadyJobIsClaimed(cfg, cs, sas, start, stop, id);
      }
    } else {
      var attempt :| 1 <= attempt < cfg.jobMaxAttempts
        && RetryDelay(attempt, cfg.retryBaseDelay, cfg.retryMaxDelay) <= 0;
      var cs, sas, start := ReadyJobIsPassedOver(cfg, attempt);
    }
  }

  /** A configuration that a queue accepts unchanged and that starves: a base of 2^62 ns wraps on the second attempt. */
  lemma AcceptedConfigurationStarves()
    ensures var cfg := Config(1, 5, 300 * SECOND, 0x4000_0000_0000_0000, INT64_MAX, true, SECOND);
            Normalised(cfg) && !RetriesWait(cfg)
  {
    assert Pow2(1) == 2;
    assert RetryDelay(2, 0x4000_0000_0000_0000, INT64_MAX) < 0;
  }
}
