/** The MongoDB store under concurrent workers, and its refinement of the memory store. */
module MongoQueue {
  import opened Base
  import opened AsyncTypes
  import opened MongoJobStore
  import opened JobProtocol
  import LeaseProtocol
  import opened MemoryQueue

  function MongoAction(c: Core, sa: StoreAction): Action {
    match sa
    case Enqueue(job) => if DuplicateKey(c.jobs, job) then Idle else Insert(job)
    case Other(a) => a
  }

  /** As offered to the memory store, except that a claim takes a first match of the sorted filter. */
  predicate MongoOffered(cfg: Config, c: Core, sa: StoreAction) {
    match sa
    case Enqueue(job) => FreshJob(cfg, job, c.clock) && job.id !in c.jobs
    case Other(Take(id, _)) => FirstMatch(c.jobs, id, c.clock)
    case Other(a) => !a.Insert? && Enabled(cfg, c, a)
  }

  function MongoNext(cfg: Config, c: Core, sa: StoreAction): Core
    requires MongoOffered(cfg, c, sa)
  {
    Next(cfg, c, MongoAction(c, sa))
  }

  predicate MongoRun(cfg: Config, cs: seq<Core>, sas: seq<StoreAction>) {
    && Normalised(cfg)
    && |cs| == |sas| + 1
    && Init(cs[0])
    && forall i :: 0 <= i < |sas| ==> MongoOffered(cfg, cs[i], sas[i]) && cs[i + 1] == MongoNext(cfg, cs[i], sas[i])
  }

  function MongoActions(cs: seq<Core>, sas: seq<StoreAction>): (acts: seq<Action>)
    requires |cs| == |sas| + 1
    ensures |acts| == |sas| && forall i :: 0 <= i < |sas| ==> acts[i] == MongoAction(cs[i], sas[i])
  {
    seq(|sas|, i requires 0 <= i < |sas| => MongoAction(cs[i], sas[i]))
  }

  predicate TimelyMongoRun(cfg: Config, cs: seq<Core>, sas: seq<StoreAction>) {
    MongoRun(cfg, cs, sas) && Timely(cs, MongoActions(cs, sas))
  }

  lemma MongoStepIsStep(cfg: Config, c: Core, sa: StoreAction)
    requires MongoOffered(cfg, c, sa) && LeaseProtocol.AllLocked(c.jobs)
    ensures Enabled(cfg, c, MongoAction(c, sa)) && LeaseProtocol.AllLocked(MongoNext(cfg, c, sa).jobs)
  {
  }

  lemma {:induction false} MongoAlwaysLocked(cfg: Config, cs: seq<Core>, sas: seq<StoreAction>, i: nat)
    requires MongoRun(cfg, cs, sas) && i < |cs|
    ensures LeaseProtocol.AllLocked(cs[i].jobs)
  {
    if i > 0 {
      MongoAlwaysLocked(cfg, cs, sas, i - 1);
      MongoStepIsStep(cfg, cs[i - 1], sas[i - 1]);
    }
  }

  lemma TimelyRunExtends(cfg: Config, cs: seq<Core>, sas: seq<StoreAction>, sa: StoreAction)
    requires TimelyMongoRun(cfg, cs, sas) && |cs| == |sas| + 1
    requires MongoOffered(cfg, cs[|sas|], sa) && TimelyAction(cs[|sas|], MongoAction(cs[|sas|], sa))
    ensures TimelyMongoRun(cfg, cs + [MongoNext(cfg, cs[|sas|], sa)], sas + [sa])
  {
    hide MongoOffered, MongoNext, MongoAction, TimelyAction, Init;
    var cs', sas' := cs + [MongoNext(cfg, cs[|sas|], sa)], sas + [sa];
    forall i | 0 <= i < |sas'|
      ensures TimelyAction(cs'[i], MongoActions(cs', sas')[i])
    {
      if i < |sas| {
        assert TimelyAction(cs[i], MongoActions(cs, sas)[i]);
      }
    }
  }

  /** The branch for a running document without lockedUntil is never taken. */
  lemma MissingLeaseBranchUnreachable(cfg: Config, cs: seq<Core>, sas: seq<StoreAction>, i: nat, id: string)
    requires MongoRun(cfg, cs, sas) && i < |cs| && id in cs[i].jobs
    ensures !(cs[i].jobs[id].status == Running && cs[i].jobs[id].lockedUntil.None?)
    ensures forall now :: Matches(cs[i].jobs[id], now) == ReadyToClaim(cs[i].jobs[id], now)
  {
    MongoAlwaysLocked(cfg, cs, sas, i);
    assert LeaseProtocol.Locked(cs[i].jobs[id]);
  }

  /** A run of the MongoDB store is a run of the protocol, so accounting and leases hold of it too. */
  lemma MongoRunIsRun(cfg: Config, cs: seq<Core>, sas: seq<StoreAction>)
    requires MongoRun(cfg, cs, sas)
    ensures Run(cfg, cs, MongoActions(cs, sas))
  {
    var acts := MongoActions(cs, sas);
    forall i | 0 <= i < |acts|
      ensures Enabled(cfg, cs[i], acts[i]) && cs[i + 1] == Next(cfg, cs[i], acts[i])
    {
      MongoAlwaysLocked(cfg, cs, sas, i);
      MongoStepIsStep(cfg, cs[i], sas[i]);
    }
  }

  // ----- One document per key, outright -----

  lemma UniqueKeysStep(cfg: Config, c: Core, sa: StoreAction)
    requires MongoOffered(cfg, c, sa) && UniqueKeys(c.jobs)
    ensures UniqueKeys(MongoNext(cfg, c, sa).jobs)
  {
  }

  /** The MongoDB store keeps at most one job per key in every run, late reports included. */
  lemma {:induction false} OneDocumentPerKey(cfg: Config, cs: seq<Core>, sas: seq<StoreAction>, i: nat)
    requires MongoRun(cfg, cs, sas) && i < |cs|
    ensures UniqueKeys(cs[i].jobs)
  {
    if i > 0 {
      OneDocumentPerKey(cfg, cs, sas, i - 1);
      UniqueKeysStep(cfg, cs[i - 1], sas[i - 1]);
    }
  }

  // ----- Refinement -----

  /** A collection with unique keys seen as the memory store: the index is the inverse of the key field. */
  predicate Represents(m: Mem, c: Core) {
    && m.core == c
    && (forall id :: id in c.jobs ==> id != "" && c.jobs[id].key in m.index && m.index[c.jobs[id].key] == id)
    && (forall k :: k in m.index ==> m.index[k] in c.jobs && c.jobs[m.index[k]].key == k)
  }

  /** The enqueue meets its own key on a job that is dead-lettered or failed. */
  predicate EnqueuesSpentKey(c: Core, sa: StoreAction) {
    sa.Enqueue? && exists id :: id in c.jobs && c.jobs[id].key == sa.job.key && Spent(c.jobs[id])
  }

  /** The two stores treat an action alike exactly when it does not re-enqueue a spent key. */
  lemma StoresAgreeIff(cfg: Config, m: Mem, c: Core, sa: StoreAction)
    requires Represents(m, c) && MongoOffered(cfg, c, sa)
    ensures MemAction(m, sa) == MongoAction(c, sa) <==> !EnqueuesSpentKey(c, sa)
  {
  }

  /** The action of the memory store that answers one of the MongoDB store. */
  function Answer(c: Core, sa: StoreAction): StoreAction {
    if EnqueuesSpentKey(c, sa) then Other(Idle) else sa
  }

  lemma RefinementStep(cfg: Config, m: Mem, c: Core, sa: StoreAction)
    requires Represents(m, c) && MongoOffered(cfg, c, sa) && LeaseProtocol.AllLocked(c.jobs)
    ensures Offered(cfg, c, Answer(c, sa))
    ensures Represents(MemNext(cfg, m, Answer(c, sa)), MongoNext(cfg, c, sa))
  {
    MongoStepIsStep(cfg, c, sa);
    if EnqueuesSpentKey(c, sa) {
      assert DuplicateKey(c.jobs, sa.job);
    } else {
      StoresAgreeIff(cfg, m, c, sa);
      assert MemNext(cfg, m, sa).core == MongoNext(cfg, c, sa);
    }
  }

  lemma RepresentsCore(m: Mem, c: Core)
    requires Represents(m, c)
    ensures m.core == c
  {
  }

  lemma NothingStored(cfg: Config, c: Core)
    requires Normalised(cfg) && Init(c)
    ensures MemRun(cfg, [Mem(c, map[])], []) && Represents(Mem(c, map[]), c)
  {
  }

  lemma MongoRunPrefix(cfg: Config, cs: seq<Core>, sas: seq<StoreAction>, n: nat)
    requires MongoRun(cfg, cs, sas) && n <= |sas|
    ensures |cs| == |sas| + 1 && Normalised(cfg) && Init(cs[0])
    ensures MongoRun(cfg, cs[..n + 1], sas[..n])
    ensures n < |sas| ==> MongoOffered(cfg, cs[n], sas[n]) && cs[n + 1] == MongoNext(cfg, cs[n], sas[n])
  {
  }

  /**
   Every run of the MongoDB store is a run of the memory store through the same jobs, tickets and history.
   The actions are the same too, except that re-enqueueing a spent key, which MongoDB ignores, is left out.
   */
  lemma {:induction false} MongoRefinesMemory(cfg: Config, cs: seq<Core>, sas: seq<StoreAction>)
      returns (ms: seq<Mem>, answers: seq<StoreAction>)
    requires MongoRun(cfg, cs, sas)
    ensures MemRun(cfg, ms, answers)
    ensures |ms| == |cs| && forall i :: 0 <= i < |cs| ==> ms[i].core == cs[i]
    ensures |answers| == |sas| && forall i :: 0 <= i < |sas| ==> answers[i] == Answer(cs[i], sas[i])
    ensures Represents(ms[|sas|], cs[|sas|])
    decreases |sas|
  {
    hide MongoRun, MemRun, Represents, MongoNext, LeaseProtocol.AllLocked, Answer, MemNext, MongoOffered, Offered, Init;
    MongoRunPrefix(cfg, cs, sas, |sas|);
    if sas == [] {
      ms, answers := [Mem(cs[0], map[])], [];
      NothingStored(cfg, cs[0]);
    } else {
      var n := |sas| - 1;
      MongoRunPrefix(cfg, cs, sas, n);
      var earlier, said := MongoRefinesMemory(cfg, cs[..n + 1], sas[..n]);
      MongoAlwaysLocked(cfg, cs, sas, n);
      RefinementStep(cfg, earlier[n], cs[n], sas[n]);
      RepresentsCore(earlier[n], cs[n]);
      RepresentsCore(MemNext(cfg, earlier[n], Answer(cs[n], sas[n])), cs[n + 1]);
      MemRunExtends(cfg, earlier, said, Answer(cs[n], sas[n]));
      ms := earlier + [MemNext(cfg, earlier[n], Answer(cs[n], sas[n]))];
      answers := said + [Answer(cs[n], sas[n])];
    }
  }

  /** When no key is enqueued again after its job died, it is the very same run. */
  lemma MongoRunIsMemoryRun(cfg: Config, cs: seq<Core>, sas: seq<StoreAction>) returns (ms: seq<Mem>)
    requires MongoRun(cfg, cs, sas)
    requires forall i :: 0 <= i < |sas| ==> !EnqueuesSpentKey(cs[i], sas[i])
    ensures MemRun(cfg, ms, sas) && |ms| == |cs| && forall i :: 0 <= i < |cs| ==> ms[i].core == cs[i]
  {
    var answers;
    ms, answers := MongoRefinesMemory(cfg, cs, sas);
    assert answers == sas;
  }
}
