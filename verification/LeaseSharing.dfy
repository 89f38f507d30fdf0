/**
 When two workers are inside leases on one job. Only a claim can bring that about, and the first time it does, a
 superseded worker had asked for a retry that was due before the lease of the other one was over.
 */
module LeaseSharing {
  import opened Base
  import opened AsyncTypes
  import Backoff
  import MemoryJobStore
  import JobRunner
  import opened JobProtocol
  import opened AttemptAccounting
  import opened AttemptBound

  /** No two workers are inside leases on one job. */
  predicate Exclusive(c: Core) {
    forall t, u :: t in c.tickets && u in c.tickets && t != u && InLease(c, t) && InLease(c, u) ==>
      c.tickets[t].id != c.tickets[u].id
  }

  /** The step claims a job that some worker is inside a lease on. */
  predicate SharesLease(c: Core, a: Action) {
    a.Take? && exists u :: u in c.tickets && c.tickets[u].id == a.jobId && InLease(c, u)
  }

  /** Every ticket is numbered below the next one, and names its job. */
  lemma TicketsNumbered(c: Core)
    requires Accounted(c)
    ensures forall t :: t in c.tickets ==> t < c.issued && c.tickets[t].id in c.jobs
  {
    hide AllBalanced, DistinctAttempts;
  }

  lemma SharingBreaks(cfg: Config, c: Core, a: Action)
    requires Normalised(cfg) && Enabled(cfg, c, a) && MemoryJobStore.Filed(c.jobs) && SharesLease(c, a)
    requires forall t :: t in c.tickets ==> t < c.issued
    ensures !Exclusive(Next(cfg, c, a))
  {
    var c' := Next(cfg, c, a);
    var u :| u in c.tickets && c.tickets[u].id == a.jobId && InLease(c, u);
    assert u in c'.tickets && c.issued in c'.tickets && InLease(c', u) && InLease(c', c.issued);
    assert c'.tickets[u].id == c'.tickets[c.issued].id;
  }

  lemma OthersKeepExclusion(cfg: Config, c: Core, a: Action)
    requires Enabled(cfg, c, a) && MemoryJobStore.Filed(c.jobs) && Exclusive(c) && !SharesLease(c, a)
    requires forall t :: t in c.tickets ==> t < c.issued
    ensures Exclusive(Next(cfg, c, a))
  {
    hide JobRunner.ReportIn, ReportEvent;
    var c' := Next(cfg, c, a);
    forall t, u | t in c'.tickets && u in c'.tickets && t != u && InLease(c', t) && InLease(c', u)
      ensures c'.tickets[t].id != c'.tickets[u].id
    {
      assert t in c.tickets ==> InLease(c, t);
      assert u in c.tickets ==> InLease(c, u);
    }
  }

  /** Exclusion ends with a step exactly when it claims a job that some worker is inside a lease on. */
  lemma ExclusionEndsIff(cfg: Config, c: Core, a: Action)
    requires Normalised(cfg) && Enabled(cfg, c, a) && Accounted(c) && Exclusive(c)
    ensures !Exclusive(Next(cfg, c, a)) <==> SharesLease(c, a)
  {
    hide Exclusive, SharesLease, AllBalanced, Next;
    TicketsNumbered(c);
    FiledWhenAccounted(c);
    if SharesLease(c, a) {
      SharingBreaks(cfg, c, a);
    } else {
      OthersKeepExclusion(cfg, c, a);
    }
  }

  /** A run has been exclusive all the time exactly when no step so far claimed a job inside someone's lease. */
  lemma {:induction false} ExclusiveSoFarIff(cfg: Config, cs: seq<Core>, acts: seq<Action>, i: nat)
    requires Run(cfg, cs, acts) && i < |cs|
    ensures (forall k :: 0 <= k <= i ==> Exclusive(cs[k])) <==> (forall k :: 0 <= k < i ==> !SharesLease(cs[k], acts[k]))
  {
    hide Exclusive, SharesLease, Accounted, Next, Enabled;
    RunAt(cfg, cs, acts);
    if i == 0 {
      NobodyInside(cs[0]);
    } else {
      ExclusiveSoFarIff(cfg, cs, acts, i - 1);
      AlwaysAccounted(cfg, cs, acts, i - 1);
      if Exclusive(cs[i - 1]) {
        ExclusionEndsIff(cfg, cs[i - 1], acts[i - 1]);
      }
      assert (forall k :: 0 <= k <= i ==> Exclusive(cs[k]))
        <==> (forall k :: 0 <= k <= i - 1 ==> Exclusive(cs[k])) && Exclusive(cs[i]);
      assert (forall k :: 0 <= k < i ==> !SharesLease(cs[k], acts[k]))
        <==> (forall k :: 0 <= k < i - 1 ==> !SharesLease(cs[k], acts[k])) && !SharesLease(cs[i - 1], acts[i - 1]);
    }
  }

  lemma NobodyInside(c: Core)
    requires Init(c)
    ensures Exclusive(c)
  {
  }

  // ----- How the first shared lease comes about -----

  /** No lease reaches further than one taken now, and none further than that of the attempt a job is running on. */
  predicate LatestLease(cfg: Config, c: Core) {
    forall t :: t in c.tickets ==>
      && c.tickets[t].id in c.jobs && c.tickets[t].lockedUntil.Some?
      && c.tickets[t].lockedUntil.value <= c.clock + cfg.visibilityTimeout
      && (c.jobs[c.tickets[t].id].status == Running ==>
            && c.jobs[c.tickets[t].id].lockedUntil.Some?
            && c.tickets[t].lockedUntil.value <= c.jobs[c.tickets[t].id].lockedUntil.value)
  }

  lemma LatestLeaseStep(cfg: Config, c: Core, a: Action)
    requires Enabled(cfg, c, a) && MemoryJobStore.Filed(c.jobs) && LatestLease(cfg, c)
    ensures LatestLease(cfg, Next(cfg, c, a))
  {
    hide Backoff.RetryDelay, ReportEvent;
    var c' := Next(cfg, c, a);
    forall t | t in c'.tickets
      ensures c'.tickets[t].id in c'.jobs && c'.tickets[t].lockedUntil.Some?
      ensures c'.tickets[t].lockedUntil.value <= c'.clock + cfg.visibilityTimeout
      ensures c'.jobs[c'.tickets[t].id].status == Running ==>
                && c'.jobs[c'.tickets[t].id].lockedUntil.Some?
                && c'.tickets[t].lockedUntil.value <= c'.jobs[c'.tickets[t].id].lockedUntil.value
    {
      if t in c.tickets {
        assert c.tickets[t].id in c.jobs;
      }
    }
  }

  lemma {:induction false} AlwaysLatestLease(cfg: Config, cs: seq<Core>, acts: seq<Action>, i: nat)
    requires Run(cfg, cs, acts) && i < |cs|
    ensures LatestLease(cfg, cs[i])
  {
    hide LatestLease, Accounted, Next, Enabled;
    RunAt(cfg, cs, acts);
    if i > 0 {
      AlwaysLatestLease(cfg, cs, acts, i - 1);
      AlwaysAccounted(cfg, cs, acts, i - 1);
      FiledWhenAccounted(cs[i - 1]);
      LatestLeaseStep(cfg, cs[i - 1], acts[i - 1]);
    } else {
      NoTickets(cfg, cs[0]);
    }
  }

  lemma NoTickets(cfg: Config, c: Core)
    requires Init(c)
    ensures LatestLease(cfg, c) && InsideIsLatest(c)
  {
  }

  /** Whoever is inside a lease made the job's last claim. */
  predicate InsideIsLatest(c: Core) {
    forall t :: t in c.tickets && InLease(c, t) ==>
      c.tickets[t].id in c.jobs && c.tickets[t].attempts == c.jobs[c.tickets[t].id].attempts
  }

  lemma InsideIsLatestStep(cfg: Config, c: Core, a: Action)
    requires Enabled(cfg, c, a) && MemoryJobStore.Filed(c.jobs) && InsideIsLatest(c) && !SharesLease(c, a)
    requires forall t :: t in c.tickets ==> t < c.issued
    ensures InsideIsLatest(Next(cfg, c, a))
  {
    hide Backoff.RetryDelay, ReportEvent;
    var c' := Next(cfg, c, a);
    forall t | t in c'.tickets && InLease(c', t)
      ensures c'.tickets[t].id in c'.jobs && c'.tickets[t].attempts == c'.jobs[c'.tickets[t].id].attempts
    {
      assert t in c.tickets ==> InLease(c, t);
    }
  }

  lemma {:induction false} InsideIsLatestUntilShared(cfg: Config, cs: seq<Core>, acts: seq<Action>, i: nat)
    requires Run(cfg, cs, acts) && i < |cs| && forall k :: 0 <= k < i ==> !SharesLease(cs[k], acts[k])
    ensures InsideIsLatest(cs[i])
  {
    hide InsideIsLatest, SharesLease, Accounted, Next, Enabled;
    RunAt(cfg, cs, acts);
    if i > 0 {
      InsideIsLatestUntilShared(cfg, cs, acts, i - 1);
      AlwaysAccounted(cfg, cs, acts, i - 1);
      FiledWhenAccounted(cs[i - 1]);
      TicketsNumbered(cs[i - 1]);
      InsideIsLatestStep(cfg, cs[i - 1], acts[i - 1]);
    } else {
      NoTickets(cfg, cs[0]);
    }
  }

  /** A superseded worker reports a failure, and its retry is due at `due`. */
  predicate AsksForRetry(cfg: Config, c: Core, a: Action, id: string, due: Time) {
    && SupersededReport(c, a, id) && a.outcome.Failed?
    && due == c.clock + Backoff.RetryDelay(c.tickets[a.ticket].attempts, cfg.retryBaseDelay, cfg.retryMaxDelay)
  }

  /** The job waits for a retry while the worker of ticket `u` is inside its lease on it. */
  predicate RetriedInside(c: Core, id: string, u: nat) {
    u in c.tickets && c.tickets[u].id == id && InLease(c, u) && id in c.jobs && c.jobs[id].status == Retrying
  }

  lemma RetriedInsideStep(cfg: Config, c: Core, a: Action, id: string, u: nat)
    requires Enabled(cfg, c, a) && Accounted(c) && InsideIsLatest(c) && RetriedInside(Next(cfg, c, a), id, u)
    ensures || AsksForRetry(cfg, c, a, id, Next(cfg, c, a).jobs[id].runAfter)
            || (RetriedInside(c, id, u) && Next(cfg, c, a).jobs[id].runAfter == c.jobs[id].runAfter)
  {
    hide Backoff.RetryDelay, ReportEvent, Balanced;
    var c' := Next(cfg, c, a);
    if a.Report? && c.tickets[a.ticket].id == id {
      assert u in c.tickets && u != a.ticket && InLease(c, u);
      assert TicketCounts(c.hist, c.jobs, c.tickets[a.ticket]);
      assert c.tickets[a.ticket].attempts != c.tickets[u].attempts;
    } else if u in c.tickets {
      assert InLease(c, u);
    }
  }

  lemma {:induction false} RetriedInsideWasAskedFor(cfg: Config, cs: seq<Core>, acts: seq<Action>, i: nat, id: string, u: nat)
    requires Run(cfg, cs, acts) && i < |cs| && forall k :: 0 <= k < i ==> !SharesLease(cs[k], acts[k])
    requires RetriedInside(cs[i], id, u)
    ensures exists k :: 0 <= k < i && AsksForRetry(cfg, cs[k], acts[k], id, cs[i].jobs[id].runAfter)
  {
    hide RetriedInside, AsksForRetry, InsideIsLatest, SharesLease, Accounted, Next, Enabled;
    RunAt(cfg, cs, acts);
    RetriedNames(cs[i], id, u);
    if i > 0 {
      AlwaysAccounted(cfg, cs, acts, i - 1);
      InsideIsLatestUntilShared(cfg, cs, acts, i - 1);
      RetriedInsideStep(cfg, cs[i - 1], acts[i - 1], id, u);
      if !AsksForRetry(cfg, cs[i - 1], acts[i - 1], id, cs[i].jobs[id].runAfter) {
        RetriedInsideWasAskedFor(cfg, cs, acts, i - 1, id, u);
      }
    }
  }

  lemma RetriedNames(c: Core, id: string, u: nat)
    requires RetriedInside(c, id, u)
    ensures id in c.jobs && c.tickets != map[]
  {
  }

  /**
   The first claim to share a lease meets the job waiting for a retry. A superseded worker had reported a failure on
   it, and the delay of that retry was over before the lease of the worker still inside.
   */
  lemma FirstSharedLease(cfg: Config, cs: seq<Core>, acts: seq<Action>, i: nat, u: nat)
    requires Run(cfg, cs, acts) && i < |acts| && forall k :: 0 <= k < i ==> !SharesLease(cs[k], acts[k])
    requires acts[i].Take? && u in cs[i].tickets && cs[i].tickets[u].id == acts[i].jobId && InLease(cs[i], u)
    ensures acts[i].jobId in cs[i].jobs && cs[i].jobs[acts[i].jobId].status == Retrying
    ensures exists k, due ::
              && 0 <= k < i && AsksForRetry(cfg, cs[k], acts[k], acts[i].jobId, due)
              && due <= cs[i].tickets[u].lockedUntil.value
  {
    hide SharesLease, AsksForRetry, Next;
    var id := acts[i].jobId;
    AlwaysLatestLease(cfg, cs, acts, i);
    AlwaysAccounted(cfg, cs, acts, i);
    PendingAlwaysUntried(cfg, cs, acts, i);
    assert Enabled(cfg, cs[i], acts[i]);
    assert TicketCounts(cs[i].hist, cs[i].jobs, cs[i].tickets[u]);
    RetriedInsideWasAskedFor(cfg, cs, acts, i, id, u);
    var k :| 0 <= k < i && AsksForRetry(cfg, cs[k], acts[k], id, cs[i].jobs[id].runAfter);
  }
}
