/** The reports of one room along a run: what they count never goes down, except the peak. */
module ReportHistory {
  import opened Base
  import opened VoiceTypes
  import opened VoiceState
  import opened VoiceRuns
  import opened VoiceLaws
  import opened ReportLaws
  import SpeakerTokens
  import Do = VoiceCommands

  // ----- Sessions only get longer -----

  /** Every session is still there, in its room and with its start, and ends no sooner; a new end is not before `since`. */
  predicate Lasts(before: map<string, ListenerSession>, after: map<string, ListenerSession>, since: Time) {
    forall id :: id in before ==>
      && id in after && after[id].roomId == before[id].roomId && after[id].joinedAt == before[id].joinedAt
      && (before[id].leftAt.Some? ==> after[id].leftAt.Some? && before[id].leftAt.value <= after[id].leftAt.value)
      && (before[id].leftAt.None? && after[id].leftAt.Some? ==> since <= after[id].leftAt.value)
  }

  lemma LastsStep(s: State, change: Change, earlier: Time, now: Time, since: Time)
    requires Keyed(s) && Legal(s, change, now) && Dated(s.sessions, earlier) && earlier <= now && since <= now
    ensures Lasts(s.sessions, Write(s, change).sessions, since)
  {
    hide LegalRoom, LegalRecording, LegalSpeaker, LegalRequest, LegalBlock, LegalReport, Do.RoleOf;
    if change.EndListeners? {
      LastsAfterEnds(s, change.ended, change.told, earlier, now, since);
    }
  }

  lemma LastsAfterEnds(s: State, ended: seq<ListenerSession>, told: seq<Event>, earlier: Time, now: Time, since: Time)
    requires Keyed(s) && LegalEnds(s, ended, told, now) && Dated(s.sessions, earlier) && earlier <= now && since <= now
    ensures Lasts(s.sessions, EndSessions(s, ended).sessions, since)
  {
    hide EndSessions, Lasts;
    EndSessionsEffect(s, ended);
    LastsReplaced(s, ended, told, EndSessions(s, ended).sessions, earlier, now, since);
  }

  lemma LastsReplaced(s: State, ended: seq<ListenerSession>, told: seq<Event>, after: map<string, ListenerSession>,
                      earlier: Time, now: Time, since: Time)
    requires LegalEnds(s, ended, told, now) && Dated(s.sessions, earlier) && earlier <= now && since <= now
    requires Keyed(s) && Replaces(s.sessions, ended, after)
    ensures Lasts(s.sessions, after, since)
  {
    forall id | id in s.sessions
      ensures after[id] == s.sessions[id] || EndOf(s.sessions[id], after[id], now)
    {
      if i :| 0 <= i < |ended| && ended[i].id == id {
        assert after[ended[i].id] == ended[i] && EndOf(s.sessions[ended[i].id], ended[i], now);
      }
    }
  }

  lemma LastsOn(a: map<string, ListenerSession>, b: map<string, ListenerSession>, c: map<string, ListenerSession>,
                since: Time)
    requires Lasts(a, b, since) && Lasts(b, c, since)
    ensures Lasts(a, c, since)
  {
  }

  /** The state holds all the sessions, events and tokens of an earlier one. */
  ghost predicate Grows(before: State, after: State, since: Time) {
    && Lasts(before.sessions, after.sessions, since)
    && before.events <= after.events && before.grants <= after.grants
  }

  lemma GrowsStep(cfg: ServiceConfig, ss: seq<State>, cmds: seq<Command>, times: seq<Time>, i: nat, since: Time)
    requires Run(cfg, ss, cmds, times) && i < |cmds| && |ss| == |cmds| + 1 && |times| == |cmds| && since <= times[i]
    ensures Grows(ss[i], ss[i + 1], since)
  {
    hide Run, Legal, Keyed, Write, Decide, Dated, Lasts;
    AlwaysKeyed(cfg, ss, cmds, times, i);
    StepOf(cfg, ss, cmds, times, i);
    assert Since(times, i, times[i]) by { TimesAscend(cfg, ss, cmds, times, i); }
    AlwaysDated(cfg, ss, cmds, times, i, times[i]);
    LastsStep(ss[i], Decide(cfg, ss[i], cmds[i], times[i]), times[i], times[i], since);
    SpeakerTokens.LogsGrow(ss[i], Decide(cfg, ss[i], cmds[i], times[i]));
  }

  lemma TimesAscend(cfg: ServiceConfig, ss: seq<State>, cmds: seq<Command>, times: seq<Time>, i: nat)
    requires Run(cfg, ss, cmds, times) && i < |times|
    ensures forall k :: 0 <= k <= i ==> times[k] <= times[i]
  {
    hide Apply, Possible, Empty;
  }

  lemma {:induction false} RunGrows(cfg: ServiceConfig, ss: seq<State>, cmds: seq<Command>, times: seq<Time>,
                                    i: nat, j: nat, since: Time)
    requires Run(cfg, ss, cmds, times) && i <= j < |ss| && (i < j ==> i < |times| && since <= times[i])
    ensures Grows(ss[i], ss[j], since)
    decreases j
  {
    hide Run, Lasts;
    if i < j {
      RunShape(cfg, ss, cmds, times);
      TimesAscend(cfg, ss, cmds, times, j - 1);
      RunGrows(cfg, ss, cmds, times, i, j - 1, since);
      GrowsStep(cfg, ss, cmds, times, j - 1, since);
      LastsOn(ss[i].sessions, ss[j - 1].sessions, ss[j].sessions, since);
    } else {
      LastsAtOnce(ss[i].sessions, since);
    }
  }

  lemma LastsAtOnce(sessions: map<string, ListenerSession>, since: Time)
    ensures Lasts(sessions, sessions, since)
  {
  }

  // ----- So do their sums -----

  lemma {:induction false} SumGrows(m: map<string, int>, n: map<string, int>)
    requires m.Keys <= n.Keys && (forall id :: id in m ==> m[id] <= n[id]) && (forall id :: id in n ==> n[id] >= 0)
    ensures Sum(m) <= Sum(n)
    decreases |n|
  {
    if id :| id in n {
      SumPicks(n, id);
      if id in m {
        SumPicks(m, id);
        SumGrows(m - {id}, n - {id});
      } else {
        SumGrows(m, n - {id});
      }
    }
  }

  lemma StaysGrow(before: map<string, ListenerSession>, after: map<string, ListenerSession>, roomId: string,
                  now: Time, later: Time)
    requires Lasts(before, after, now) && now <= later && Dated(after, later)
    ensures Sum(Floored(Stays(before, roomId, now))) <= Sum(Floored(Stays(after, roomId, later)))
  {
    hide Sum;
    var short, long := Stays(before, roomId, now), Stays(after, roomId, later);
    assert forall id :: id in short ==> id in long && short[id] <= long[id];
    SumGrows(Floored(short), Floored(long));
  }

  lemma SubsetSize(a: set<string>, b: set<string>)
    requires a <= b
    ensures |a| <= |b|
  {
    assert b == a + (b - a);
  }

  /** What the log and the tokens say grows with them. */
  lemma CountsGrow(before: State, after: State, since: Time, roomId: string)
    requires Grows(before, after, since)
    ensures JoinEvents(before.events, roomId) <= JoinEvents(after.events, roomId)
    ensures |JoinedUsers(before.events, roomId)| <= |JoinedUsers(after.events, roomId)|
    ensures |TokenHolders(before.grants, roomId)| <= |TokenHolders(after.grants, roomId)|
  {
    hide JoinEvents, Lasts;
    var told := after.events[|before.events|..];
    assert after.events == before.events + told;
    JoinEventsAppend(before.events, told, roomId);
    JoinedAppend(before.events, told, roomId);
    SubsetSize(JoinedUsers(before.events, roomId), JoinedUsers(after.events, roomId));
    assert forall g :: g in before.grants ==> g in after.grants;
    SubsetSize(TokenHolders(before.grants, roomId), TokenHolders(after.grants, roomId));
  }

  /**
   A later report of a room never counts fewer joins, listeners, speakers or seconds than an earlier one, though
   sessions end, are removed, expire, and may be left again in between.
   */
  lemma ReportsNeverShrink(cfg: ServiceConfig, ss: seq<State>, cmds: seq<Command>, times: seq<Time>, i: nat, j: nat,
                           roomId: string, now: Time, later: Time)
    requires Run(cfg, ss, cmds, times) && i <= j < |ss| && now <= later
    requires Since(times, i, now) && Since(times, j, later) && (i < j ==> i < |times| && now <= times[i])
    ensures var first, second := StatsOf(ss[i], roomId, now), StatsOf(ss[j], roomId, later);
            && first.totalJoinEvents <= second.totalJoinEvents
            && first.uniqueListeners <= second.uniqueListeners
            && first.uniqueSpeakers <= second.uniqueSpeakers
            && first.totalListeningSeconds <= second.totalListeningSeconds
  {
    hide Run, StatsOf, Lasts, Dated;
    RunGrows(cfg, ss, cmds, times, i, j, now);
    CountsGrow(ss[i], ss[j], now, roomId);
    ReportCountsPeople(cfg, ss, cmds, times, i, roomId, now);
    ReportCountsPeople(cfg, ss, cmds, times, j, roomId, later);
    ReportMeansWhatItSays(cfg, ss, cmds, times, i, roomId, now);
    ReportMeansWhatItSays(cfg, ss, cmds, times, j, roomId, later);
    AlwaysDated(cfg, ss, cmds, times, j, later);
    StaysGrow(ss[i].sessions, ss[j].sessions, roomId, now, later);
  }
}
