/** The MongoDB queue starves no one: a bound on how many claims a ready job can be passed over by. */
module NoStarvation {
  import opened Base
  import opened AsyncTypes
  import opened Backoff
  import MemoryJobStore
  import MongoJobStore
  import opened JobProtocol
  import opened AttemptAccounting
  import opened LeaseProtocol
  import opened MemoryQueue
  import opened MongoQueue

  /** Every retry waits: the delay of no attempt before the last wraps to nothing or below. */
  ghost predicate RetriesWait(cfg: Config) {
    forall attempt: int :: 1 <= attempt < cfg.jobMaxAttempts ==>
      RetryDelay(attempt, cfg.retryBaseDelay, cfg.retryMaxDelay) > 0
  }

  /** The first eleven of those delays decide that; a safe base is enough. */
  lemma RetriesWaitIff(cfg: Config)
    ensures RetriesWait(cfg)
       <==> forall attempt: int :: 1 <= attempt < cfg.jobMaxAttempts && attempt <= 11 ==>
              RetryDelay(attempt, cfg.retryBaseDelay, cfg.retryMaxDelay) > 0
    ensures Normalised(cfg) && SafeBase(cfg.retryBaseDelay) ==> RetriesWait(cfg)
  {
    var base, max := cfg.retryBaseDelay, cfg.retryMaxDelay;
    forall attempt: int | attempt > 11
      ensures RetryDelay(attempt, base, max) == RetryDelay(11, base, max)
    {
      assert ShiftOf(attempt) == ShiftOf(11);
    }
    if Normalised(cfg) && SafeBase(base) {
      forall attempt: int | attempt >= 1
        ensures RetryDelay(attempt, base, max) > 0
      {
        SafeDelay(attempt, base, max);
      }
    }
  }

  /** The waiting jobs that ClaimNext may prefer to `id`. */
  function Ahead(jobs: MemoryJobStore.Jobs, id: string): set<string>
    requires id in jobs
  {
    set other | other in jobs && other != id && Waits(jobs[other]) && MongoJobStore.NotLater(jobs[other], jobs[id])
  }

  /** Nothing enqueued at `now` sorts level with the job. */
  predicate NoTie(job: Job, now: Time) {
    !(job.runAfter == now && job.createdAt == now)
  }

  /** Every job carries the configured maximum of attempts. */
  predicate Configured(cfg: Config, jobs: MemoryJobStore.Jobs) {
    forall id :: id in jobs ==> jobs[id].maxAttempts == cfg.jobMaxAttempts
  }

  lemma {:induction false} AlwaysConfigured(cfg: Config, cs: seq<Core>, acts: seq<Action>, i: nat)
    requires Run(cfg, cs, acts) && i < |cs|
    ensures Configured(cfg, cs[i].jobs)
  {
    if i > 0 {
      hide RetryDelay, ReportEvent;
      AlwaysConfigured(cfg, cs, acts, i - 1);
      assert Enabled(cfg, cs[i - 1], acts[i - 1]) && cs[i] == Next(cfg, cs[i - 1], acts[i - 1]);
    }
  }

  predicate CreatedInPast(c: Core) {
    forall id :: id in c.jobs ==> c.jobs[id].createdAt <= c.clock
  }

  lemma {:induction false} AlwaysCreatedInPast(cfg: Config, cs: seq<Core>, acts: seq<Action>, i: nat)
    requires Run(cfg, cs, acts) && i < |cs|
    ensures CreatedInPast(cs[i])
  {
    if i > 0 {
      AlwaysCreatedInPast(cfg, cs, acts, i - 1);
      assert Enabled(cfg, cs[i - 1], acts[i - 1]) && cs[i] == Next(cfg, cs[i - 1], acts[i - 1]);
    }
  }

  /** `id` is ready, so a claim of another job came first in the order and either shortens the line or reclaims. */
  lemma PassedOver(cfg: Config, c: Core, sa: StoreAction, id: string)
    requires MongoOffered(cfg, c, sa) && sa.Other? && sa.a.Take? && sa.a.jobId != id
    requires id in c.jobs && ReadyToClaim(c.jobs[id], c.clock)
    ensures var ahead, ahead' := Ahead(c.jobs, id), Ahead(MongoNext(cfg, c, sa).jobs, id);
            if c.jobs[sa.a.jobId].status == Running then |ahead'| <= |ahead| else |ahead'| + 1 <= |ahead|
  {
    var ahead, ahead' := Ahead(c.jobs, id), Ahead(MongoNext(cfg, c, sa).jobs, id);
    if c.jobs[sa.a.jobId].status == Running {
      assert ahead' <= ahead;
      SubsetSize(ahead', ahead);
    } else {
      assert sa.a.jobId in ahead;
      assert ahead' <= ahead - {sa.a.jobId};
      SubsetSize(ahead', ahead - {sa.a.jobId});
    }
  }

  lemma {:induction false} SubsetSize<T>(small: set<T>, large: set<T>)
    requires small <= large
    ensures |small| <= |large|
  {
    assert large == small + (large - small);
  }

  /** Retries wait a positive delay and new jobs are due now, so both line up behind a job that is already due. */
  lemma OthersLineUpBehind(cfg: Config, c: Core, sa: StoreAction, id: string)
    requires RetriesWait(cfg) && MongoOffered(cfg, c, sa)
    requires !(sa.Other? && sa.a.Take?) && MemoryJobStore.Filed(c.jobs) && CreatedInPast(c)
    requires id in c.jobs && c.jobs[id].runAfter <= c.clock
    requires sa.Other? && sa.a.Report? ==>
               && c.tickets[sa.a.ticket].id != id && c.tickets[sa.a.ticket].attempts >= 1
               && c.tickets[sa.a.ticket].maxAttempts == cfg.jobMaxAttempts
    requires sa.Enqueue? ==> NoTie(c.jobs[id], c.clock)
    ensures id in MongoNext(cfg, c, sa).jobs && MongoNext(cfg, c, sa).jobs[id] == c.jobs[id]
    ensures Ahead(MongoNext(cfg, c, sa).jobs, id) <= Ahead(c.jobs, id)
  {
    hide RetryDelay;
    if sa.Other? && sa.a.Report? {
      assert c.tickets[sa.a.ticket].attempts < cfg.jobMaxAttempts ==>
               RetryDelay(c.tickets[sa.a.ticket].attempts, cfg.retryBaseDelay, cfg.retryMaxDelay) > 0;
    }
  }

  predicate IsClaim(sa: StoreAction) {
    sa.Other? && sa.a.Take?
  }

  predicate ClaimsJob(sa: StoreAction, id: string) {
    sa.Other? && sa.a.Take? && sa.a.jobId == id
  }

  /** The claim takes over a job whose lease ran out. */
  predicate TakesOver(c: Core, sa: StoreAction) {
    sa.Other? && sa.a.Take? && sa.a.jobId in c.jobs && c.jobs[sa.a.jobId].status == Running
  }

  function ClaimsIn(sas: seq<StoreAction>, start: nat, stop: nat): nat
    requires start <= stop <= |sas|
    decreases stop
  {
    if start == stop then 0 else ClaimsIn(sas, start, stop - 1) + (if IsClaim(sas[stop - 1]) then 1 else 0)
  }

  function TakeoversIn(cs: seq<Core>, sas: seq<StoreAction>, start: nat, stop: nat): nat
    requires start <= stop <= |sas| && |cs| == |sas| + 1
    decreases stop
  {
    if start == stop then 0
    else TakeoversIn(cs, sas, start, stop - 1) + (if TakesOver(cs[stop - 1], sas[stop - 1]) then 1 else 0)
  }

  lemma WaitingStep(cfg: Config, c: Core, sa: StoreAction, id: string)
    requires RetriesWait(cfg)
    requires MongoOffered(cfg, c, sa) && TimelyAction(c, MongoAction(c, sa)) && !ClaimsJob(sa, id)
    requires Accounted(c) && LeasesHeld(c) && CreatedInPast(c) && Configured(cfg, c.jobs)
    requires id in c.jobs && ReadyToClaim(c.jobs[id], c.clock)
    requires sa.Enqueue? ==> NoTie(c.jobs[id], c.clock)
    ensures var c' := MongoNext(cfg, c, sa);
            && id in c'.jobs && c'.jobs[id] == c.jobs[id] && ReadyToClaim(c'.jobs[id], c'.clock)
            && |Ahead(c'.jobs, id)| + (if IsClaim(sa) then 1 else 0)
               <= |Ahead(c.jobs, id)| + (if TakesOver(c, sa) then 1 else 0)
  {
    hide Balanced, DistinctAttempts;
    if IsClaim(sa) {
      PassedOver(cfg, c, sa, id);
    } else {
      if sa.Other? && sa.a.Report? {
        // A ticket inside its lease holds its job, and a held job is not ready.
        assert Holds(c.jobs, c.tickets[sa.a.ticket]);
        assert TicketCounts(c.hist, c.jobs, c.tickets[sa.a.ticket]);
      }
      OthersLineUpBehind(cfg, c, sa, id);
      SubsetSize(Ahead(MongoNext(cfg, c, sa).jobs, id), Ahead(c.jobs, id));
    }
  }

  /** While the job is not claimed it stays ready, and claims are paid for by the line ahead and by takeovers. */
  lemma {:induction false} Waiting(cfg: Config, cs: seq<Core>, sas: seq<StoreAction>, start: nat, stop: nat, id: string)
    requires TimelyMongoRun(cfg, cs, sas) && RetriesWait(cfg) && start <= stop <= |sas|
    requires |cs| == |sas| + 1
    requires id in cs[start].jobs && ReadyToClaim(cs[start].jobs[id], cs[start].clock)
    requires forall i :: start <= i < stop ==> !ClaimsJob(sas[i], id)
    requires forall i :: start <= i < stop && sas[i].Enqueue? ==> NoTie(cs[start].jobs[id], cs[i].clock)
    ensures id in cs[stop].jobs && cs[stop].jobs[id] == cs[start].jobs[id]
    ensures ReadyToClaim(cs[stop].jobs[id], cs[stop].clock)
    ensures |Ahead(cs[stop].jobs, id)| + ClaimsIn(sas, start, stop)
         <= |Ahead(cs[start].jobs, id)| + TakeoversIn(cs, sas, start, stop)
    decreases stop
  {
    if start < stop {
      hide RetriesWait, Ahead, ReadyToClaim, TimelyMongoRun, IsClaim, TakesOver, ClaimsJob, NoTie, MongoNext;
      Waiting(cfg, cs, sas, start, stop - 1, id);
      WaitingAt(cfg, cs, sas, stop - 1, id);
    }
  }

  lemma WaitingAt(cfg: Config, cs: seq<Core>, sas: seq<StoreAction>, n: nat, id: string)
    requires TimelyMongoRun(cfg, cs, sas) && RetriesWait(cfg) && n < |sas| && |cs| == |sas| + 1
    requires id in cs[n].jobs && ReadyToClaim(cs[n].jobs[id], cs[n].clock) && !ClaimsJob(sas[n], id)
    requires sas[n].Enqueue? ==> NoTie(cs[n].jobs[id], cs[n].clock)
    ensures id in cs[n + 1].jobs && cs[n + 1].jobs[id] == cs[n].jobs[id]
    ensures ReadyToClaim(cs[n + 1].jobs[id], cs[n + 1].clock)
    ensures |Ahead(cs[n + 1].jobs, id)| + (if IsClaim(sas[n]) then 1 else 0)
         <= |Ahead(cs[n].jobs, id)| + (if TakesOver(cs[n], sas[n]) then 1 else 0)
  {
    hide RetriesWait, Ahead, ReadyToClaim, Accounted, LeasesHeld, MongoOffered, TimelyAction, IsClaim, TakesOver, ClaimsJob, NoTie,
         MongoNext;
    TimelyStateAt(cfg, cs, sas, n);
    WaitingStep(cfg, cs[n], sas[n], id);
  }

  lemma TimelyStateAt(cfg: Config, cs: seq<Core>, sas: seq<StoreAction>, n: nat)
    requires TimelyMongoRun(cfg, cs, sas) && n < |sas|
    ensures MongoOffered(cfg, cs[n], sas[n]) && cs[n + 1] == MongoNext(cfg, cs[n], sas[n])
    ensures TimelyAction(cs[n], MongoAction(cs[n], sas[n]))
    ensures Accounted(cs[n]) && LeasesHeld(cs[n]) && CreatedInPast(cs[n]) && Configured(cfg, cs[n].jobs)
  {
    hide Accounted, LeasesHeld, TimelyAction;
    var acts := MongoActions(cs, sas);
    MongoRunIsRun(cfg, cs, sas);
    LeasesAlwaysHeld(cfg, cs, acts, n);
    AlwaysCreatedInPast(cfg, cs, acts, n);
    AlwaysConfigured(cfg, cs, acts, n);
    assert TimelyAction(cs[n], acts[n]);
  }

  /**
   Between `start` and `stop` of a timely run a job ready at `start` has waited out its turn: there was a claim for
   it, for each waiting job not later than it, and for each expired lease taken over meanwhile. No enqueue ties with it.
   */
  predicate TurnHasCome(cfg: Config, cs: seq<Core>, sas: seq<StoreAction>, start: nat, stop: nat, id: string) {
    && TimelyMongoRun(cfg, cs, sas) && |cs| == |sas| + 1 && start <= stop <= |sas|
    && id in cs[start].jobs && ReadyToClaim(cs[start].jobs[id], cs[start].clock)
    && (forall i :: start <= i < stop && sas[i].Enqueue? ==> NoTie(cs[start].jobs[id], cs[i].clock))
    && ClaimsIn(sas, start, stop) >= 1 + |Ahead(cs[start].jobs, id)| + TakeoversIn(cs, sas, start, stop)
  }

  predicate ClaimedBetween(sas: seq<StoreAction>, start: nat, stop: nat, id: string) {
    exists at :: start <= at < stop && at < |sas| && ClaimsJob(sas[at], id)
  }

  /**
   No starvation. A ready job is claimed within one claim, plus one for each waiting job that was not later than
   it, plus one for each expired lease taken over meanwhile, provided no enqueue ties with it exactly.
   */
  lemma ReadyJobIsClaimed(cfg: Config, cs: seq<Core>, sas: seq<StoreAction>, start: nat, stop: nat, id: string)
    requires RetriesWait(cfg) && TurnHasCome(cfg, cs, sas, start, stop, id)
    ensures ClaimedBetween(sas, start, stop, id)
  {
    if forall i :: start <= i < stop ==> !ClaimsJob(sas[i], id) {
      Waiting(cfg, cs, sas, start, stop, id);
      assert false;
    }
  }

  lemma {:induction false} ClockNeverGoesBack(cfg: Config, cs: seq<Core>, acts: seq<Action>, i: nat, j: nat)
    requires Run(cfg, cs, acts) && i <= j < |cs|
    ensures cs[i].clock <= cs[j].clock
    decreases j
  {
    if i < j {
      ClockNeverGoesBack(cfg, cs, acts, i, j - 1);
      assert Enabled(cfg, cs[j - 1], acts[j - 1]) && cs[j] == Next(cfg, cs[j - 1], acts[j - 1]);
    }
  }

  /** Ties can only come from enqueues at the very instant the job was due and created; a tick later there are none. */
  lemma DueJobIsClaimed(cfg: Config, cs: seq<Core>, sas: seq<StoreAction>, start: nat, stop: nat, id: string)
    requires TimelyMongoRun(cfg, cs, sas) && RetriesWait(cfg) && |cs| == |sas| + 1 && start <= stop <= |sas|
    requires id in cs[start].jobs && ReadyToClaim(cs[start].jobs[id], cs[start].clock)
    requires cs[start].jobs[id].createdAt < cs[start].clock
    requires ClaimsIn(sas, start, stop) >= 1 + |Ahead(cs[start].jobs, id)| + TakeoversIn(cs, sas, start, stop)
    ensures ClaimedBetween(sas, start, stop, id)
  {
    MongoRunIsRun(cfg, cs, sas);
    forall i | start <= i < stop && sas[i].Enqueue?
      ensures NoTie(cs[start].jobs[id], cs[i].clock)
    {
      ClockNeverGoesBack(cfg, cs, MongoActions(cs, sas), start, i);
    }
    ReadyJobIsClaimed(cfg, cs, sas, start, stop, id);
  }

  /** Among matching documents one is first, so a poll never comes back empty while a ready job waits. */
  lemma {:induction false} SomeFirstAmong(docs: MemoryJobStore.Jobs, ids: set<string>) returns (first: string)
    requires ids != {} && forall id :: id in ids ==> id in docs
    ensures first in ids && forall id :: id in ids ==> MongoJobStore.NotLater(docs[first], docs[id])
    decreases |ids|
  {
    var id :| id in ids;
    if ids == {id} {
      first := id;
    } else {
      first := SomeFirstAmong(docs, ids - {id});
      if !MongoJobStore.NotLater(docs[first], docs[id]) {
        first := id;
      }
    }
  }

  lemma PollFindsSomething(cfg: Config, c: Core, id: string, workerID: string) returns (first: string)
    requires id in c.jobs && ReadyToClaim(c.jobs[id], c.clock)
    ensures MongoOffered(cfg, c, Other(Take(first, workerID)))
  {
    var matching := set other | other in c.jobs && MongoJobStore.Matches(c.jobs[other], c.clock);
    assert id in matching;
    first := SomeFirstAmong(c.jobs, matching);
  }
}
