/** Listener expiry in the composed system, where every run of it comes from a job and its cutoff moves with the clock. */
module WorldExpiry {
  import opened Base
  import opened VoiceTypes
  import opened VoiceState
  import opened VoiceRuns
  import opened VoiceLaws
  import opened ExpiryLaws
  import opened JobRegistry
  import opened EndToEnd
  import WorldLaws
  import Do = VoiceCommands

  function MomentOf(w: World): Moment {
    Moment(w.voice.sessions, w.queue.core.clock)
  }

  function MomentsOf(ws: seq<World>): (ms: seq<Moment>)
    ensures |ms| == |ws| && forall k :: 0 <= k < |ws| ==> ms[k] == MomentOf(ws[k])
  {
    seq(|ws|, k requires 0 <= k < |ws| => MomentOf(ws[k]))
  }

  /** A worker's handler runs the expiry. */
  predicate IsExpiry(a: Step) {
    a.Work? && a.handlerCmd.ExpireStale?
  }

  function Expiries(steps: seq<Step>): (es: seq<bool>)
    ensures |es| == |steps| && forall k :: 0 <= k < |steps| ==> es[k] == IsExpiry(steps[k])
  {
    seq(|steps|, k requires 0 <= k < |steps| => IsExpiry(steps[k]))
  }

  // ----- Who is expired -----

  /** Every expired session had been silent for longer than the timeout when it was ended. */
  ghost predicate ExpiredWereSilent(s: State, timeout: Time) {
    forall id :: id in s.sessions && s.sessions[id].status == SessionExpired ==>
      s.sessions[id].leftAt.Some? && s.sessions[id].lastHeartbeatAt < s.sessions[id].leftAt.value - timeout
  }

  lemma SilentStep(x: Settings, w: World, a: Step)
    requires WorldSound(w) && Enabled(x, w, a) && ExpiredWereSilent(w.voice, x.listenerTimeout)
    ensures ExpiredWereSilent(Next(x, w, a).voice, x.listenerTimeout)
  {
    hide Apply, Possible, QueueSound, WorkSound, Delivered, RequestsAsked, FinishedAsked, HandlerSucceeds, RoomsStaged,
         SessionsSound, SpeakingSound, Keyed;
    var s, s' := w.voice, Next(x, w, a).voice;
    WorldLaws.VoiceHalf(x, w, a);
    if a.Serve? || a.Work? {
      var cmd := if a.Serve? then a.cmd else a.handlerCmd;
      forall id | id in s'.sessions && s'.sessions[id].status == SessionExpired
        ensures s'.sessions[id].leftAt.Some?
        ensures s'.sessions[id].lastHeartbeatAt < s'.sessions[id].leftAt.value - x.listenerTimeout
      {
        ExpiredOnlyIfSilent(x.service, s, cmd, w.queue.core.clock, id);
      }
    }
  }

  /**
   In every reachable state whoever was expired had sent no heartbeat for longer than the listener timeout before the
   instant of leaving.
   */
  lemma {:induction false} ExpiredHadBeenSilent(x: Settings, ws: seq<World>, steps: seq<Step>, i: nat)
    requires WorldRun(x, ws, steps) && i < |ws|
    ensures ExpiredWereSilent(ws[i].voice, x.listenerTimeout)
  {
    hide WorldSound, Enabled, Next, WorldRun, ExpiredWereSilent, Start;
    WorldRunAt(x, ws, steps);
    if i == 0 {
      NobodyExpired(ws[0], x.listenerTimeout);
    } else {
      ExpiredHadBeenSilent(x, ws, steps, i - 1);
      AlwaysWorldSound(x, ws, steps, i - 1);
      SilentStep(x, ws[i - 1], steps[i - 1]);
    }
  }

  lemma NobodyExpired(w: World, timeout: Time)
    requires Start(w)
    ensures ExpiredWereSilent(w.voice, timeout)
  {
  }

  // ----- Draining -----

  lemma CommandAges(cfg: ServiceConfig, s: State, cmd: Command, now: Time)
    requires Keyed(s) && Possible(s, cmd)
    ensures forall cutoff :: cutoff <= now ==> Stale(Apply(cfg, s, cmd, now).sessions, cutoff) <= Stale(s.sessions, cutoff)
  {
    hide Keyed, Legal, Decide, Possible, Write, Stale;
    DecisionsAreLegal(cfg, s, cmd, now);
    forall cutoff | cutoff <= now
      ensures Stale(Apply(cfg, s, cmd, now).sessions, cutoff) <= Stale(s.sessions, cutoff)
    {
      NoneTurnsStale(s, Decide(cfg, s, cmd, now), now, cutoff);
    }
  }

  lemma ExpiryTakesBatch(x: Settings, w: World, a: Step)
    requires x.listenerTimeout >= 0 && WorldSound(w) && Enabled(x, w, a) && IsExpiry(a)
    ensures Gone(MomentOf(w), MomentOf(Next(x, w, a)), x.listenerTimeout)
         == Min(EXPIRY_BATCH, |Overdue(MomentOf(w), x.listenerTimeout)|)
  {
    hide QueueSound, WorkSound, Delivered, RequestsAsked, FinishedAsked, HandlerSucceeds, RoomsStaged, SessionsSound,
         SpeakingSound, Keyed, Stale, Write, Do.ListsStale, Do.ExpireEach, Do.ExpiryEvents;
    var s, now := w.voice, w.queue.core.clock;
    var cutoff := now - x.listenerTimeout;
    CommandAges(x.service, s, a.handlerCmd, now);
    ExpiryRunCounts(s, cutoff, EXPIRY_BATCH, a.handlerCmd.order, now);
    SplitSize(Stale(s.sessions, cutoff), Stale(Next(x, w, a).voice.sessions, cutoff));
  }

  lemma WorldAges(x: Settings, w: World, a: Step)
    requires x.listenerTimeout >= 0 && WorldSound(w) && Enabled(x, w, a)
    ensures Ages(MomentOf(w), MomentOf(Next(x, w, a)), IsExpiry(a), x.listenerTimeout, EXPIRY_BATCH)
  {
    hide QueueSound, WorkSound, Delivered, RequestsAsked, FinishedAsked, Handles, HandlerSucceeds, RoomsStaged,
         SessionsSound, SpeakingSound, Keyed, Stale, Apply, Possible, Gone, Overdue, Next, Enabled;
    WorldLaws.VoiceHalf(x, w, a);
    if a.Serve? || a.Work? {
      CommandAges(x.service, w.voice, if a.Serve? then a.cmd else a.handlerCmd, w.queue.core.clock);
    }
    if IsExpiry(a) {
      ExpiryTakesBatch(x, w, a);
    }
  }

  /** The laws of draining hold of every run, with expiry jobs at any instants and any commands in between. */
  lemma WorldHistory(x: Settings, ws: seq<World>, steps: seq<Step>)
    requires WorldRun(x, ws, steps) && x.listenerTimeout >= 0
    ensures History(MomentsOf(ws), Expiries(steps), x.listenerTimeout, EXPIRY_BATCH)
  {
    hide WorldSound, Enabled, Next, WorldRun, Start, Ages, IsExpiry;
    WorldRunAt(x, ws, steps);
    forall k | 0 <= k < |steps|
      ensures Ages(MomentsOf(ws)[k], MomentsOf(ws)[k + 1], Expiries(steps)[k], x.listenerTimeout, EXPIRY_BATCH)
    {
      AlwaysWorldSound(x, ws, steps, k);
      WorldAges(x, ws[k], steps[k]);
    }
  }

  /**
   Whoever was overdue at step `i` is no longer so at step `j`, on the clock of step `i`, once the expiry handlers in
   between had room for them and for all who became overdue since, whatever else went on.
   */
  lemma OverdueListenersAreCleared(x: Settings, ws: seq<World>, steps: seq<Step>, i: nat, j: nat)
    requires WorldRun(x, ws, steps) && x.listenerTimeout >= 0 && i <= j <= |steps| && |ws| == |steps| + 1
    requires Runs(Expiries(steps), i, j) * EXPIRY_BATCH
          >= |Overdue(MomentOf(ws[i]), x.listenerTimeout)| + Arrived(MomentsOf(ws), x.listenerTimeout, i, j)
    ensures Stale(ws[j].voice.sessions, ws[i].queue.core.clock - x.listenerTimeout) == {}
  {
    hide WorldRun, History, Stale, Runs, Arrived;
    WorldHistory(x, ws, steps);
    OverdueAreCleared(MomentsOf(ws), Expiries(steps), x.listenerTimeout, EXPIRY_BATCH, i, j);
  }
}
