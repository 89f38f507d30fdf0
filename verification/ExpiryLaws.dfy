/** Expiry of silent listeners: only silent ones are expired, and repeated runs clear them all. */
module ExpiryLaws {
  import opened Base
  import opened VoiceTypes
  import opened VoiceState
  import opened VoiceRuns
  import opened VoiceLaws
  import Do = VoiceCommands

  lemma EndedInOrder(s: State, cutoff: Time, limit: int, order: seq<string>, now: Time)
    requires Keyed(s) && Do.ListsStale(order, Stale(s.sessions, cutoff), Do.EffectiveLimit(limit))
    ensures var ended := Do.ExpireEach(s, order, now);
            && |ended| == |order|
            && (forall i :: 0 <= i < |ended| ==>
                  order[i] in s.sessions && ended[i].id == order[i] && ended[i] == Do.ExpiredAt(s.sessions[order[i]], now))
            && Replaces(s.sessions, ended, Write(s, Do.ExpireStale(s, cutoff, limit, order, now).0).sessions)
  {
    hide EndSessions, EndSession, Replaces, Stale;
    StaleAreStored(s.sessions, cutoff);
    var ended := Do.ExpireEach(s, order, now);
    EndSessionsFrame(s, ended);
    EndSessionsEffect(s, ended);
  }

  /** What ExpireStale does to one session. */
  lemma ExpiryEffect(s: State, cutoff: Time, limit: int, order: seq<string>, now: Time, id: string)
    requires Keyed(s) && Do.ListsStale(order, Stale(s.sessions, cutoff), Do.EffectiveLimit(limit)) && id in s.sessions
    ensures var after := Write(s, Do.ExpireStale(s, cutoff, limit, order, now).0).sessions;
            && after.Keys == s.sessions.Keys
            && after[id] == if id in order then Do.ExpiredAt(s.sessions[id], now) else s.sessions[id]
  {
    hide Keyed, Write, Stale, Do.ExpiredAt;
    EndedInOrder(s, cutoff, limit, order, now);
    var ended := Do.ExpireEach(s, order, now);
    if id in order {
      var i :| 0 <= i < |order| && order[i] == id;
      assert ended[i].id == id;
    } else {
      assert forall i :: 0 <= i < |ended| ==> ended[i].id != id;
    }
  }

  lemma OthersDoNotExpire(cfg: ServiceConfig, s: State, cmd: Command, now: Time)
    requires Possible(s, cmd) && !cmd.ExpireStale? && Decide(cfg, s, cmd, now).EndListeners?
    ensures forall k :: 0 <= k < |Decide(cfg, s, cmd, now).ended| ==>
              Decide(cfg, s, cmd, now).ended[k].status != SessionExpired
  {
    hide Do.ModeratedRoom, Do.NewRoom;
  }

  lemma UntouchedIfExpired(s: State, change: Change, now: Time, id: string)
    requires Legal(s, change, now)
    requires change.EndListeners? ==> forall k :: 0 <= k < |change.ended| ==> change.ended[k].status != SessionExpired
    requires id in Write(s, change).sessions && Write(s, change).sessions[id].status == SessionExpired
    ensures id in s.sessions && Write(s, change).sessions[id] == s.sessions[id]
  {
    hide LegalRoom, LegalRecording, LegalSpeaker, LegalRequest, LegalBlock, LegalReport, Do.RoleOf;
    if change.EndListeners? {
      var ended := change.ended;
      EndSessionsFrame(s, ended);
      EndSessionsEffect(s, ended);
      forall k | 0 <= k < |ended|
        ensures ended[k].id != id
      {
        assert EndSessions(s, ended).sessions[ended[k].id] == ended[k];
      }
    }
  }

  /**
   An expired session was expired before and is untouched, or an expiry run has just ended it, being active then with
   a last heartbeat before the cutoff.
   */
  lemma ExpiredOnlyIfSilent(cfg: ServiceConfig, s: State, cmd: Command, now: Time, id: string)
    requires Keyed(s) && Possible(s, cmd)
    requires var after := Apply(cfg, s, cmd, now).sessions; id in after && after[id].status == SessionExpired
    ensures var after := Apply(cfg, s, cmd, now).sessions;
            && id in s.sessions
            && (|| after[id] == s.sessions[id]
                || (&& cmd.ExpireStale? && s.sessions[id].status == SessionActive
                    && s.sessions[id].lastHeartbeatAt < cmd.cutoff && after[id] == Do.ExpiredAt(s.sessions[id], now)))
  {
    hide Keyed, Write, Legal;
    if cmd.ExpireStale? {
      SameKeysAfterExpiry(s, cmd.cutoff, cmd.limit, cmd.order, now);
      ExpiryEffect(s, cmd.cutoff, cmd.limit, cmd.order, now, id);
    } else {
      DecisionsAreLegal(cfg, s, cmd, now);
      if Decide(cfg, s, cmd, now).EndListeners? {
        OthersDoNotExpire(cfg, s, cmd, now);
      }
      hide Decide;
      UntouchedIfExpired(s, Decide(cfg, s, cmd, now), now, id);
    }
  }

  // ----- One run -----

  lemma {:induction false} OrderSize(order: seq<string>)
    requires forall i, j :: 0 <= i < j < |order| ==> order[i] != order[j]
    ensures |set id | id in order| == |order|
  {
    if order != [] {
      var last := order[|order| - 1];
      var earlier := order[..|order| - 1];
      OrderSize(earlier);
      assert (set id | id in order) == (set id | id in earlier) + {last};
    }
  }

  /** One run answers the number of sessions it expired and removes exactly those from the stale ones. */
  lemma ExpiryRunCounts(s: State, cutoff: Time, limit: int, order: seq<string>, now: Time)
    requires Keyed(s) && Do.ListsStale(order, Stale(s.sessions, cutoff), Do.EffectiveLimit(limit))
    ensures var (change, expired) := Do.ExpireStale(s, cutoff, limit, order, now);
            && expired == Min(Do.EffectiveLimit(limit), |Stale(s.sessions, cutoff)|)
            && |Stale(Write(s, change).sessions, cutoff)| == |Stale(s.sessions, cutoff)| - expired
            && Keyed(Write(s, change))
  {
    var change := Do.ExpireStale(s, cutoff, limit, order, now).0;
    ExpiryIsLegal(s, cutoff, limit, order, now);
    KeyedStep(s, change, now);
    StaleAfterExpiry(s, cutoff, limit, order, now);
    OrderSize(order);
    var gone := set id | id in order;
    assert gone <= Stale(s.sessions, cutoff);
  }

  lemma StaleAfterExpiry(s: State, cutoff: Time, limit: int, order: seq<string>, now: Time)
    requires Keyed(s) && Do.ListsStale(order, Stale(s.sessions, cutoff), Do.EffectiveLimit(limit))
    ensures var change := Do.ExpireStale(s, cutoff, limit, order, now).0;
            Stale(Write(s, change).sessions, cutoff) == Stale(s.sessions, cutoff) - (set id | id in order)
  {
    hide Keyed, Write;
    var change := Do.ExpireStale(s, cutoff, limit, order, now).0;
    forall id | id in s.sessions
      ensures id in Write(s, change).sessions
      ensures id in Stale(Write(s, change).sessions, cutoff) <==> id in Stale(s.sessions, cutoff) && id !in order
    {
      ExpiryEffect(s, cutoff, limit, order, now, id);
    }
    forall id | id in Write(s, change).sessions
      ensures id in s.sessions
    {
      SameKeysAfterExpiry(s, cutoff, limit, order, now);
    }
  }

  lemma SameKeysAfterExpiry(s: State, cutoff: Time, limit: int, order: seq<string>, now: Time)
    requires Keyed(s) && Do.ListsStale(order, Stale(s.sessions, cutoff), Do.EffectiveLimit(limit))
    ensures Write(s, Do.ExpireStale(s, cutoff, limit, order, now).0).sessions.Keys == s.sessions.Keys
  {
    hide Keyed, Write, Stale, Do.ExpireEach;
    EndedInOrder(s, cutoff, limit, order, now);
  }

  // ----- Draining, with everything else going on -----

  /** No command at `now` makes a session stale for a cutoff up to `now`. */
  lemma NoneTurnsStale(s: State, change: Change, now: Time, cutoff: Time)
    requires Legal(s, change, now) && cutoff <= now
    ensures Stale(Write(s, change).sessions, cutoff) <= Stale(s.sessions, cutoff)
  {
    hide LegalRoom, LegalRecording, LegalSpeaker, LegalRequest, LegalBlock, LegalReport, Do.RoleOf;
    hide ListenerPresent, ParticipantPresent;
    if change.EndListeners? {
      EndSessionsFrame(s, change.ended);
      EndSessionsEffect(s, change.ended);
      NoneEndsStale(s.sessions, change.ended, EndSessions(s, change.ended).sessions, cutoff);
    }
  }

  lemma NoneEndsStale(before: map<string, ListenerSession>, ended: seq<ListenerSession>,
                      after: map<string, ListenerSession>, cutoff: Time)
    requires Replaces(before, ended, after)
    requires forall i :: 0 <= i < |ended| ==> ended[i].status != SessionActive
    ensures Stale(after, cutoff) <= Stale(before, cutoff)
  {
    forall i | 0 <= i < |ended|
      ensures ended[i].id !in Stale(after, cutoff)
    {
      assert after[ended[i].id] == ended[i];
    }
  }

  /** The listener sessions at an instant. */
  datatype Moment = Moment(sessions: map<string, ListenerSession>, now: Time)

  /** The sessions overdue at that instant: active, and silent for longer than the timeout. */
  function Overdue(m: Moment, timeout: Time): set<string> {
    Stale(m.sessions, m.now - timeout)
  }

  /** Those of them still overdue, on the clock of the earlier moment, at the later one. */
  function StillOverdue(m: Moment, m': Moment, timeout: Time): set<string> {
    Stale(m'.sessions, m.now - timeout)
  }

  /** How many became overdue from one moment to the next. */
  function Newly(m: Moment, m': Moment, timeout: Time): nat {
    |Overdue(m', timeout) - StillOverdue(m, m', timeout)|
  }

  /** How many of the overdue ones got out of the way. */
  function Gone(m: Moment, m': Moment, timeout: Time): nat {
    |Overdue(m, timeout) - StillOverdue(m, m', timeout)|
  }

  /** From one moment to the next time passes, nobody falls silent in retrospect, and an expiry run takes its batch. */
  ghost predicate Ages(m: Moment, m': Moment, expires: bool, timeout: Time, limit: nat) {
    && m.now <= m'.now
    && (forall cutoff :: cutoff <= m.now ==> Stale(m'.sessions, cutoff) <= Stale(m.sessions, cutoff))
    && (expires ==> Gone(m, m', timeout) == Min(limit, |Overdue(m, timeout)|))
  }

  /** A history of the sessions; `expires` marks the steps that are expiry runs. */
  ghost predicate History(ms: seq<Moment>, expires: seq<bool>, timeout: Time, limit: nat) {
    && timeout >= 0 && |ms| == |expires| + 1
    && forall k :: 0 <= k < |expires| ==> Ages(ms[k], ms[k + 1], expires[k], timeout, limit)
  }

  function Runs(expires: seq<bool>, i: nat, j: nat): nat
    requires i <= j <= |expires|
    decreases j
  {
    if i == j then 0 else Runs(expires, i, j - 1) + (if expires[j - 1] then 1 else 0)
  }

  /** How many sessions became overdue between the moments `i` and `j`. */
  function Arrived(ms: seq<Moment>, timeout: Time, i: nat, j: nat): nat
    requires i <= j < |ms|
    decreases j
  {
    if i == j then 0
    else Arrived(ms, timeout, i, j - 1) + Newly(ms[j - 1], ms[j], timeout)
  }

  /** How many overdue sessions the expiry runs between them ended. */
  function Expired(ms: seq<Moment>, expires: seq<bool>, timeout: Time, limit: nat, i: nat, j: nat): nat
    requires i <= j <= |expires| && |ms| == |expires| + 1
    decreases j
  {
    if i == j then 0
    else Expired(ms, expires, timeout, limit, i, j - 1)
         + (if expires[j - 1] then Min(limit, |Overdue(ms[j - 1], timeout)|) else 0)
  }

  /** How many overdue sessions something else got out of the way: a heartbeat, a leave, a removal, a close. */
  function Escaped(ms: seq<Moment>, expires: seq<bool>, timeout: Time, i: nat, j: nat): nat
    requires i <= j <= |expires| && |ms| == |expires| + 1
    decreases j
  {
    if i == j then 0
    else Escaped(ms, expires, timeout, i, j - 1)
         + (if expires[j - 1] then 0 else Gone(ms[j - 1], ms[j], timeout))
  }

  lemma LaterCutoffFindsMore(sessions: map<string, ListenerSession>, earlier: Time, later: Time)
    requires earlier <= later
    ensures Stale(sessions, earlier) <= Stale(sessions, later)
  {
  }

  lemma SplitSize(whole: set<string>, part: set<string>)
    requires part <= whole
    ensures |whole| == |part| + |whole - part|
  {
    assert whole == part + (whole - part);
  }

  lemma AgingStep(m: Moment, m': Moment, expires: bool, timeout: Time, limit: nat)
    requires timeout >= 0 && Ages(m, m', expires, timeout, limit)
    ensures |Overdue(m', timeout)| + Gone(m, m', timeout) == |Overdue(m, timeout)| + Newly(m, m', timeout)
    ensures expires ==> Gone(m, m', timeout) == Min(limit, |Overdue(m, timeout)|)
  {
    hide Stale;
    LaterCutoffFindsMore(m'.sessions, m.now - timeout, m'.now - timeout);
    SplitSize(Overdue(m', timeout), StillOverdue(m, m', timeout));
    SplitSize(Overdue(m, timeout), StillOverdue(m, m', timeout));
  }

  lemma HistoryAt(ms: seq<Moment>, expires: seq<bool>, timeout: Time, limit: nat)
    requires History(ms, expires, timeout, limit)
    ensures |ms| == |expires| + 1 && timeout >= 0
    ensures forall k :: 0 <= k < |expires| ==> Ages(ms[k], ms[k + 1], expires[k], timeout, limit)
  {
    hide Ages;
  }

  /** Conservation: what was overdue, and what became so, was expired, got away, or is overdue still. */
  lemma {:induction false} OverdueConserved(ms: seq<Moment>, expires: seq<bool>, timeout: Time, limit: nat, i: nat, j: nat)
    requires History(ms, expires, timeout, limit) && i <= j < |ms|
    ensures |Overdue(ms[j], timeout)| + Expired(ms, expires, timeout, limit, i, j) + Escaped(ms, expires, timeout, i, j)
         == |Overdue(ms[i], timeout)| + Arrived(ms, timeout, i, j)
    decreases j
  {
    hide History, Ages, Overdue, StillOverdue, Newly, Gone;
    HistoryAt(ms, expires, timeout, limit);
    if i < j {
      OverdueConserved(ms, expires, timeout, limit, i, j - 1);
      AgingStep(ms[j - 1], ms[j], expires[j - 1], timeout, limit);
    }
  }

  lemma {:induction false} TimePasses(ms: seq<Moment>, expires: seq<bool>, timeout: Time, limit: nat, i: nat, j: nat)
    requires History(ms, expires, timeout, limit) && i <= j < |ms|
    ensures ms[i].now <= ms[j].now
    decreases j
  {
    if i < j {
      TimePasses(ms, expires, timeout, limit, i, j - 1);
      assert Ages(ms[j - 1], ms[j], expires[j - 1], timeout, limit);
    }
  }

  /** Nobody overdue at an earlier moment `m0` comes back, and a run that is not a full one leaves none of them. */
  lemma DrainStep(m0: Moment, m: Moment, m': Moment, expires: bool, timeout: Time, limit: nat)
    requires timeout >= 0 && m0.now <= m.now && Ages(m, m', expires, timeout, limit)
    ensures StillOverdue(m0, m', timeout) <= StillOverdue(m0, m, timeout)
    ensures expires && |Overdue(m, timeout)| <= limit ==> StillOverdue(m0, m', timeout) == {}
  {
    hide Stale;
    LaterCutoffFindsMore(m'.sessions, m0.now - timeout, m.now - timeout);
    SplitSize(Overdue(m, timeout), StillOverdue(m, m', timeout));
  }

  /**
   Draining. Of those overdue at moment `i` none is left at moment `j`, or every expiry run in between was a full one:
   what is overdue at `j` and a full batch for each run are covered by what was overdue at `i` and what became so.
   */
  lemma {:induction false} ExpiryDrains(ms: seq<Moment>, expires: seq<bool>, timeout: Time, limit: nat, i: nat, j: nat)
    requires History(ms, expires, timeout, limit) && i <= j < |ms|
    ensures || StillOverdue(ms[i], ms[j], timeout) == {}
            || |Overdue(ms[j], timeout)| + Runs(expires, i, j) * limit
               <= |Overdue(ms[i], timeout)| + Arrived(ms, timeout, i, j)
    decreases j
  {
    hide History, Ages, Overdue, StillOverdue, Newly, Gone;
    HistoryAt(ms, expires, timeout, limit);
    if i < j {
      ExpiryDrains(ms, expires, timeout, limit, i, j - 1);
      TimePasses(ms, expires, timeout, limit, i, j - 1);
      AgingStep(ms[j - 1], ms[j], expires[j - 1], timeout, limit);
      DrainStep(ms[i], ms[j - 1], ms[j], expires[j - 1], timeout, limit);
      if expires[j - 1] {
        OneBatchMore(Runs(expires, i, j - 1), limit);
      }
    }
  }

  /** So enough runs for all of them clear everyone who was overdue at `i`, whoever else came or went. */
  lemma OverdueAreCleared(ms: seq<Moment>, expires: seq<bool>, timeout: Time, limit: nat, i: nat, j: nat)
    requires History(ms, expires, timeout, limit) && i <= j < |ms|
    requires Runs(expires, i, j) * limit >= |Overdue(ms[i], timeout)| + Arrived(ms, timeout, i, j)
    ensures StillOverdue(ms[i], ms[j], timeout) == {}
  {
    ExpiryDrains(ms, expires, timeout, limit, i, j);
    TimePasses(ms, expires, timeout, limit, i, j);
    hide History, Stale;
    LaterCutoffFindsMore(ms[j].sessions, ms[i].now - timeout, ms[j].now - timeout);
  }

  /** What is left of `n` after `runs` runs that take up to `limit` each. */
  function Left(n: nat, limit: nat, runs: nat): nat {
    if n >= runs * limit then n - runs * limit else 0
  }

  lemma OneBatchMore(runs: nat, limit: nat)
    ensures (runs + 1) * limit == runs * limit + limit
  {
  }

  lemma OneRunLess(n: nat, limit: nat, runs: nat)
    requires runs > 0
    ensures Left(n, limit, 0) == n
    ensures Left(n, limit, runs) == Left(n, limit, runs - 1) - Min(limit, Left(n, limit, runs - 1))
  {
    assert runs * limit == (runs - 1) * limit + limit;
  }

  /** If nobody else becomes overdue, at most n - r * limit of n are left after r runs, and if none gets away, just those. */
  lemma {:induction false} OverdueLeft(ms: seq<Moment>, expires: seq<bool>, timeout: Time, limit: nat, i: nat, j: nat)
    requires History(ms, expires, timeout, limit) && i <= j < |ms| && Arrived(ms, timeout, i, j) == 0
    ensures |Overdue(ms[j], timeout)| <= Left(|Overdue(ms[i], timeout)|, limit, Runs(expires, i, j))
    ensures Escaped(ms, expires, timeout, i, j) == 0 ==>
              |Overdue(ms[j], timeout)| == Left(|Overdue(ms[i], timeout)|, limit, Runs(expires, i, j))
    decreases j
  {
    hide History, Ages, Overdue, StillOverdue, Newly, Gone, Left;
    HistoryAt(ms, expires, timeout, limit);
    if i < j {
      OverdueLeft(ms, expires, timeout, limit, i, j - 1);
      AgingStep(ms[j - 1], ms[j], expires[j - 1], timeout, limit);
      if expires[j - 1] {
        OneRunLess(|Overdue(ms[i], timeout)|, limit, Runs(expires, i, j));
      }
    } else {
      OneRunLess(|Overdue(ms[i], timeout)|, limit, 1);
    }
  }

  /** Then none is overdue exactly when the runs are at least their number divided by the limit, rounded up. */
  lemma DrainedIff(ms: seq<Moment>, expires: seq<bool>, timeout: Time, limit: nat, i: nat, j: nat)
    requires History(ms, expires, timeout, limit) && i <= j < |ms| && limit > 0
    requires Arrived(ms, timeout, i, j) == 0 && Escaped(ms, expires, timeout, i, j) == 0
    ensures Overdue(ms[j], timeout) == {}
       <==> Runs(expires, i, j) >= (|Overdue(ms[i], timeout)| + limit - 1) / limit
  {
    hide Overdue, History, Runs, Arrived, Escaped;
    HistoryAt(ms, expires, timeout, limit);
    OverdueLeft(ms, expires, timeout, limit, i, j);
    CeilingDivision(|Overdue(ms[i], timeout)|, limit, Runs(expires, i, j));
  }

  lemma CeilingDivision(n: nat, l: nat, r: nat)
    requires l > 0
    ensures r * l >= n <==> r >= (n + l - 1) / l
  {
    var q := (n + l - 1) / l;
    assert q * l <= n + l - 1 < q * l + l by { DivisionBounds(n + l - 1, l); }
    if r >= q {
      assert r * l >= q * l by { ProductMonotone(q, r, l); }
    } else {
      assert (r + 1) * l <= q * l by { ProductMonotone(r + 1, q, l); }
      assert (r + 1) * l == r * l + l;
    }
  }

  lemma DivisionBounds(x: nat, l: nat)
    requires l > 0
    ensures x / l * l <= x < x / l * l + l
  {
  }

  lemma ProductMonotone(a: nat, b: nat, l: nat)
    requires a <= b
    ensures a * l <= b * l
  {
  }
}
