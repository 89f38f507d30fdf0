/** Room reports: the numbers mean what the log and the sessions say, whatever order the store is scanned in. */
module ReportLaws {
  import opened Base
  import opened VoiceTypes
  import opened VoiceState
  import opened VoiceRuns
  import opened VoiceLaws
  import RoomLaws
  import Do = VoiceCommands

  // ----- Join events -----

  function JoinEvents(events: seq<Event>, roomId: string): nat {
    if events == [] then 0
    else
      var e := events[|events| - 1];
      JoinEvents(events[..|events| - 1], roomId) + (if e.eventType == SessionStarted && e.roomId == roomId then 1 else 0)
  }

  lemma {:induction false} JoinEventsAppend(events: seq<Event>, told: seq<Event>, roomId: string)
    ensures JoinEvents(events + told, roomId) == JoinEvents(events, roomId) + JoinEvents(told, roomId)
  {
    if told == [] {
      assert events + told == events;
    } else {
      var n := |told| - 1;
      JoinEventsAppend(events, told[..n], roomId);
      assert (events + told)[..|events + told| - 1] == events + told[..n];
    }
  }

  lemma {:induction false} NoJoinEvents(told: seq<Event>, roomId: string)
    requires forall i :: 0 <= i < |told| ==> told[i].eventType != SessionStarted
    ensures JoinEvents(told, roomId) == 0
  {
    if told != [] {
      NoJoinEvents(told[..|told| - 1], roomId);
    }
  }

  lemma OneEvent(events: seq<Event>, e: Event, roomId: string)
    ensures JoinEvents(events + [e], roomId)
         == JoinEvents(events, roomId) + (if e.eventType == SessionStarted && e.roomId == roomId then 1 else 0)
  {
  }

  /** A command other than a listener's join adds no session and no join event. */
  lemma JoinsStep(s: State, change: Change, now: Time, roomId: string)
    requires Legal(s, change, now) && |SessionsIn(s.sessions, roomId)| == JoinEvents(s.events, roomId)
    ensures |SessionsIn(Write(s, change).sessions, roomId)| == JoinEvents(Write(s, change).events, roomId)
  {
    hide JoinEvents, SessionsIn, StatsOf, Do.RoleOf, LegalSpeaker, LegalListener, LegalEnds;
    match change
    case PutListener(session, e) => SessionPut(s, session, e, now, roomId);
    case EndListeners(ended, told) => SessionsEnded(s, ended, told, now, roomId);
    case PutRoom(_, e, _) => OneEvent(s.events, e, roomId);
    case PutRecording(_, _, e) => OneEvent(s.events, e, roomId);
    case PutRequest(_, e) => OneEvent(s.events, e, roomId);
    case PutBlock(_, e) => OneEvent(s.events, e, roomId);
    case PutReport(_, e) => OneEvent(s.events, e, roomId);
    case Tell(e) => OneEvent(s.events, e, roomId);
    case _ =>
  }

  lemma SessionPut(s: State, session: ListenerSession, e: Event, now: Time, roomId: string)
    requires LegalListener(s, session, e, now) && |SessionsIn(s.sessions, roomId)| == JoinEvents(s.events, roomId)
    ensures |SessionsIn(s.sessions[session.id := session], roomId)| == JoinEvents(s.events + [e], roomId)
  {
    hide JoinEvents, Do.RoleOf;
    OneEvent(s.events, e, roomId);
    var before, after := SessionsIn(s.sessions, roomId), SessionsIn(s.sessions[session.id := session], roomId);
    if e.eventType == SessionStarted && session.roomId == roomId {
      assert after == before + {session.id};
    } else {
      assert after == before;
    }
  }

  lemma SessionsEnded(s: State, ended: seq<ListenerSession>, told: seq<Event>, now: Time, roomId: string)
    requires LegalEnds(s, ended, told, now) && |SessionsIn(s.sessions, roomId)| == JoinEvents(s.events, roomId)
    ensures var s' := Write(s, EndListeners(ended, told));
            |SessionsIn(s'.sessions, roomId)| == JoinEvents(s'.events, roomId)
  {
    EndSessionsFrame(s, ended);
    EndSessionsEffect(s, ended);
    NoJoinEvents(told, roomId);
    JoinEventsAppend(s.events, told, roomId);
    var after := EndSessions(s, ended).sessions;
    forall id | id in after
      ensures after[id].roomId == s.sessions[id].roomId
    {
      if i :| 0 <= i < |ended| && ended[i].id == id {
        assert after[ended[i].id] == ended[i] && EndOf(s.sessions[ended[i].id], ended[i], now);
      }
    }
    assert SessionsIn(after, roomId) == SessionsIn(s.sessions, roomId);
  }

  /** In every reachable state a room has as many listener sessions as the log has join events for it. */
  lemma {:induction false} SessionsMatchJoinEvents(cfg: ServiceConfig, ss: seq<State>, cmds: seq<Command>,
                                                   times: seq<Time>, i: nat, roomId: string)
    requires Run(cfg, ss, cmds, times) && i < |ss|
    ensures |SessionsIn(ss[i].sessions, roomId)| == JoinEvents(ss[i].events, roomId)
  {
    hide Run, Legal, Keyed, Write, Decide, SessionsIn, JoinEvents, Empty;
    RunShape(cfg, ss, cmds, times);
    if i > 0 {
      SessionsMatchJoinEvents(cfg, ss, cmds, times, i - 1, roomId);
      AlwaysKeyed(cfg, ss, cmds, times, i - 1);
      StepOf(cfg, ss, cmds, times, i - 1);
      JoinsStep(ss[i - 1], Decide(cfg, ss[i - 1], cmds[i - 1], times[i - 1]), times[i - 1], roomId);
    } else {
      NoneAtFirst(ss[0], roomId);
    }
  }

  lemma NoneAtFirst(s: State, roomId: string)
    requires Empty(s)
    ensures |SessionsIn(s.sessions, roomId)| == JoinEvents(s.events, roomId)
  {
  }

  // ----- Totals do not depend on the order of the scan -----

  /** Any session may be counted first. */
  lemma {:induction false} TotalPicks(sessions: map<string, ListenerSession>, ids: set<string>, now: Time, id: string)
    requires ids <= sessions.Keys && id in ids
    ensures TotalSeconds(sessions, ids, now)
         == SecondsListened(sessions[id], now) + TotalSeconds(sessions, ids - {id}, now)
    decreases |ids|
  {
    var first :| first in ids
      && TotalSeconds(sessions, ids, now)
         == SecondsListened(sessions[first], now) + TotalSeconds(sessions, ids - {first}, now);
    if first != id {
      TotalPicks(sessions, ids - {first}, now, id);
      TotalPicks(sessions, ids - {id}, now, first);
      assert ids - {first} - {id} == ids - {id} - {first};
    }
  }

  ghost function Sum(m: map<string, int>): int {
    if m == map[] then 0
    else
      var id :| id in m;
      m[id] + Sum(m - {id})
  }

  lemma {:induction false} SumPicks(m: map<string, int>, id: string)
    requires id in m
    ensures Sum(m) == m[id] + Sum(m - {id})
    decreases |m|
  {
    var first :| first in m && Sum(m) == m[first] + Sum(m - {first});
    if first != id {
      SumPicks(m - {first}, id);
      SumPicks(m - {id}, first);
      assert m - {first} - {id} == m - {id} - {first};
    }
  }

  lemma {:induction false} TotalIsSum(sessions: map<string, ListenerSession>, ids: set<string>, now: Time,
                                      m: map<string, int>)
    requires ids <= sessions.Keys && m.Keys == ids
    requires forall id :: id in ids ==> m[id] == SecondsListened(sessions[id], now)
    ensures TotalSeconds(sessions, ids, now) == Sum(m)
    decreases |ids|
  {
    if id :| id in ids {
      TotalPicks(sessions, ids, now, id);
      SumPicks(m, id);
      TotalIsSum(sessions, ids - {id}, now, m - {id});
    }
  }

  function Floored(m: map<string, Time>): map<string, int> {
    map id | id in m :: m[id] / SECOND
  }

  /** Rounding each stay down to whole seconds loses less than a second a stay. */
  lemma {:induction false} RoundingLoss(m: map<string, Time>)
    ensures Sum(Floored(m)) * SECOND <= Sum(m)
    ensures m != map[] ==> Sum(m) < (Sum(Floored(m)) + |m|) * SECOND
    decreases |m|
  {
    if id :| id in m {
      SumPicks(m, id);
      SumPicks(Floored(m), id);
      RoundingLoss(m - {id});
      assert Floored(m) - {id} == Floored(m - {id});
      assert |m - {id}| == |m| - 1;
    }
  }

  /** A set of users is no larger than the set of sessions they are read from. */
  lemma {:induction false} UsersAtMostSessions(sessions: map<string, ListenerSession>, ids: set<string>)
    requires ids <= sessions.Keys
    ensures |UsersOf(sessions, ids)| <= |ids|
    decreases |ids|
  {
    if id :| id in ids {
      UsersAtMostSessions(sessions, ids - {id});
      assert UsersOf(sessions, ids) == UsersOf(sessions, ids - {id}) + {sessions[id].userId};
    } else {
      assert UsersOf(sessions, ids) == {};
    }
  }

  // ----- How long each session lasted -----

  /** Sessions start in the past, and leave after they started, in the past too. */
  predicate Dated(sessions: map<string, ListenerSession>, now: Time) {
    forall id :: id in sessions ==>
      && sessions[id].joinedAt <= now
      && (sessions[id].leftAt.Some? ==> sessions[id].joinedAt <= sessions[id].leftAt.value <= now)
  }

  lemma DatedStep(s: State, change: Change, earlier: Time, now: Time)
    requires Keyed(s) && Legal(s, change, now) && Dated(s.sessions, earlier) && earlier <= now
    ensures Dated(Write(s, change).sessions, now)
  {
    hide LegalRoom, LegalRecording, LegalSpeaker, LegalRequest, LegalBlock, LegalReport, Do.RoleOf;
    if change.EndListeners? {
      DatedAfterEnds(s, change.ended, change.told, earlier, now);
    }
  }

  lemma DatedAfterEnds(s: State, ended: seq<ListenerSession>, told: seq<Event>, earlier: Time, now: Time)
    requires Keyed(s) && LegalEnds(s, ended, told, now) && Dated(s.sessions, earlier) && earlier <= now
    ensures Dated(EndSessions(s, ended).sessions, now)
  {
    hide EndSessions, Keyed;
    EndSessionsEffect(s, ended);
    var after := EndSessions(s, ended).sessions;
    forall id | id in after
      ensures after[id].joinedAt <= now
      ensures after[id].leftAt.Some? ==> after[id].joinedAt <= after[id].leftAt.value <= now
    {
      if i :| 0 <= i < |ended| && ended[i].id == id {
        assert after[ended[i].id] == ended[i] && EndOf(s.sessions[ended[i].id], ended[i], now);
      }
    }
  }

  /** `now` is no earlier than the commands that led to state i. */
  predicate Since(times: seq<Time>, i: nat, now: Time) {
    0 < i <= |times| ==> times[i - 1] <= now
  }

  lemma {:induction false} AlwaysDated(cfg: ServiceConfig, ss: seq<State>, cmds: seq<Command>, times: seq<Time>, i: nat,
                                       now: Time)
    requires Run(cfg, ss, cmds, times) && i < |ss| && Since(times, i, now)
    ensures Dated(ss[i].sessions, now)
  {
    if i > 0 {
      hide Legal, Keyed, Write, Decide, Dated, Possible, Apply;
      AlwaysKeyed(cfg, ss, cmds, times, i - 1);
      StepOf(cfg, ss, cmds, times, i - 1);
      AlwaysDated(cfg, ss, cmds, times, i - 1, times[i - 1]);
      DatedStep(ss[i - 1], Decide(cfg, ss[i - 1], cmds[i - 1], times[i - 1]), times[i - 1], times[i - 1]);
      DatedLater(ss[i].sessions, times[i - 1], now);
    }
  }

  lemma DatedLater(sessions: map<string, ListenerSession>, earlier: Time, now: Time)
    requires Dated(sessions, earlier) && earlier <= now
    ensures Dated(sessions, now)
  {
  }

  /** How long each session of a room has lasted: until it left, whenever the report is made, or else until `now`. */
  function Stays(sessions: map<string, ListenerSession>, roomId: string, now: Time): map<string, Time> {
    map id | id in sessions && sessions[id].roomId == roomId ::
      (if sessions[id].leftAt.Some? then sessions[id].leftAt.value else now) - sessions[id].joinedAt
  }

  lemma TotalIsOfStays(sessions: map<string, ListenerSession>, roomId: string, now: Time)
    requires forall id :: id in SessionsIn(sessions, roomId) ==>
               if sessions[id].leftAt.Some? then sessions[id].joinedAt <= sessions[id].leftAt.value
               else sessions[id].joinedAt <= now
    ensures TotalSeconds(sessions, SessionsIn(sessions, roomId), now) == Sum(Floored(Stays(sessions, roomId, now)))
    ensures |Stays(sessions, roomId, now)| == |SessionsIn(sessions, roomId)|
  {
    var ids, stays := SessionsIn(sessions, roomId), Stays(sessions, roomId, now);
    TotalIsSum(sessions, ids, now, Floored(stays));
    assert stays.Keys == ids;
  }

  // ----- Who spoke and who listened -----

  /** Those a token for the room was ever issued to. */
  function TokenHolders(grants: seq<Grant>, roomId: string): set<string> {
    set g | g in grants && g.roomId == roomId :: g.userId
  }

  /** Those whose joins as listeners of the room the log tells of. */
  function JoinedUsers(events: seq<Event>, roomId: string): set<string> {
    set e | e in events && e.eventType == SessionStarted && e.roomId == roomId :: e.actorUserId
  }

  lemma SpeakersStep(s: State, change: Change, now: Time, roomId: string)
    requires Legal(s, change, now) && SpeakersIn(s.participants, roomId) == TokenHolders(s.grants, roomId)
    ensures SpeakersIn(Write(s, change).participants, roomId) == TokenHolders(Write(s, change).grants, roomId)
  {
    hide LegalRoom, LegalRecording, LegalListener, LegalRequest, LegalBlock, LegalReport, LegalEnds;
    match change
    case PutSpeaker(p) => SpeakerPut(s, p, roomId);
    case EndListeners(ended, told) => EndSessionsFrame(s, ended);
    case _ =>
  }

  lemma SpeakerPut(s: State, p: ParticipantSession, roomId: string)
    requires LegalSpeaker(s, p) && SpeakersIn(s.participants, roomId) == TokenHolders(s.grants, roomId)
    ensures SpeakersIn(s.participants[p.id := p], roomId)
         == TokenHolders(s.grants + [Grant(p.roomId, p.userId, p.role, |s.events|)], roomId)
  {
    hide Do.RoleOf;
    var participants, g := s.participants[p.id := p], Grant(p.roomId, p.userId, p.role, |s.events|);
    var grants := s.grants + [g];
    var one := if p.roomId == roomId then {p.userId} else {};
    assert SpeakersIn(participants, roomId) == SpeakersIn(s.participants, roomId) + one by {
      assert forall id :: id in s.participants ==> participants[id] == s.participants[id];
      assert p.id in participants;
    }
    assert TokenHolders(grants, roomId) == TokenHolders(s.grants, roomId) + one by {
      assert grants[|s.grants|] == g;
      assert forall h :: h in grants <==> h in s.grants || h == g;
    }
  }

  lemma JoinedAppend(events: seq<Event>, told: seq<Event>, roomId: string)
    ensures JoinedUsers(events + told, roomId) == JoinedUsers(events, roomId) + JoinedUsers(told, roomId)
  {
    assert forall e :: e in events + told <==> e in events || e in told;
  }

  lemma NobodyJoined(told: seq<Event>, roomId: string)
    requires forall i :: 0 <= i < |told| ==> told[i].eventType != SessionStarted
    ensures JoinedUsers(told, roomId) == {}
  {
  }

  lemma OneJoined(e: Event, roomId: string)
    ensures JoinedUsers([e], roomId)
         == if e.eventType == SessionStarted && e.roomId == roomId then {e.actorUserId} else {}
  {
    assert forall other :: other in [e] <==> other == e;
  }

  function ListenersIn(sessions: map<string, ListenerSession>, roomId: string): set<string> {
    UsersOf(sessions, SessionsIn(sessions, roomId))
  }

  /** A command other than a listener's join tells of no join. */
  lemma ListenersStep(s: State, change: Change, now: Time, roomId: string)
    requires Keyed(s) && Legal(s, change, now) && ListenersIn(s.sessions, roomId) == JoinedUsers(s.events, roomId)
    ensures ListenersIn(Write(s, change).sessions, roomId) == JoinedUsers(Write(s, change).events, roomId)
  {
    hide ListenersIn, JoinedUsers, StatsOf, Do.RoleOf, LegalSpeaker, LegalListener, LegalEnds, Keyed;
    match change
    case PutListener(session, e) =>
      JoinedAppend(s.events, [e], roomId);
      ListenerPut(s, session, e, now, roomId);
    case EndListeners(ended, told) => ListenersEnded(s, ended, told, now, roomId);
    case PutRoom(_, e, _) => NothingJoined(s.events, e, roomId);
    case PutRecording(_, _, e) => NothingJoined(s.events, e, roomId);
    case PutRequest(_, e) => NothingJoined(s.events, e, roomId);
    case PutBlock(_, e) => NothingJoined(s.events, e, roomId);
    case PutReport(_, e) => NothingJoined(s.events, e, roomId);
    case Tell(e) => NothingJoined(s.events, e, roomId);
    case _ =>
  }

  lemma NothingJoined(events: seq<Event>, e: Event, roomId: string)
    requires e.eventType != SessionStarted
    ensures JoinedUsers(events + [e], roomId) == JoinedUsers(events, roomId)
  {
    JoinedAppend(events, [e], roomId);
    OneJoined(e, roomId);
  }

  lemma ListenerPut(s: State, session: ListenerSession, e: Event, now: Time, roomId: string)
    requires LegalListener(s, session, e, now)
    ensures ListenersIn(s.sessions[session.id := session], roomId)
         == ListenersIn(s.sessions, roomId) + JoinedUsers([e], roomId)
  {
    hide Do.RoleOf, JoinedUsers;
    OneJoined(e, roomId);
    var after := s.sessions[session.id := session];
    if e.eventType == SessionStarted {
      assert forall id :: id in s.sessions ==> after[id] == s.sessions[id];
      if session.roomId == roomId {
        assert session.id in SessionsIn(after, roomId);
      }
    } else {
      SameListeners(s.sessions, after, roomId);
    }
  }

  lemma SameListeners(before: map<string, ListenerSession>, after: map<string, ListenerSession>, roomId: string)
    requires after.Keys == before.Keys
    requires forall id :: id in before ==>
               after[id].roomId == before[id].roomId && after[id].userId == before[id].userId
    ensures ListenersIn(after, roomId) == ListenersIn(before, roomId)
  {
    assert SessionsIn(after, roomId) == SessionsIn(before, roomId);
  }

  lemma ListenersEnded(s: State, ended: seq<ListenerSession>, told: seq<Event>, now: Time, roomId: string)
    requires LegalEnds(s, ended, told, now) && ListenersIn(s.sessions, roomId) == JoinedUsers(s.events, roomId)
    ensures var s' := Write(s, EndListeners(ended, told));
            ListenersIn(s'.sessions, roomId) == JoinedUsers(s'.events, roomId)
  {
    hide EndSessions, ListenersIn, JoinedUsers;
    EndSessionsFrame(s, ended);
    EndSessionsEffect(s, ended);
    JoinedAppend(s.events, told, roomId);
    NobodyJoined(told, roomId);
    var after := EndSessions(s, ended).sessions;
    forall id | id in s.sessions
      ensures after[id].roomId == s.sessions[id].roomId && after[id].userId == s.sessions[id].userId
    {
      if i :| 0 <= i < |ended| && ended[i].id == id {
        assert after[ended[i].id] == ended[i] && EndOf(s.sessions[ended[i].id], ended[i], now);
      }
    }
    SameListeners(s.sessions, after, roomId);
  }

  /** In every reachable state the speakers of a room are the token holders and its listeners those who joined. */
  lemma {:induction false} SpeakersAndListeners(cfg: ServiceConfig, ss: seq<State>, cmds: seq<Command>,
                                                times: seq<Time>, i: nat, roomId: string)
    requires Run(cfg, ss, cmds, times) && i < |ss|
    ensures SpeakersIn(ss[i].participants, roomId) == TokenHolders(ss[i].grants, roomId)
    ensures ListenersIn(ss[i].sessions, roomId) == JoinedUsers(ss[i].events, roomId)
  {
    hide Run, Legal, Keyed, Write, Decide, Empty, SpeakersIn, TokenHolders, ListenersIn, JoinedUsers;
    RunShape(cfg, ss, cmds, times);
    if i > 0 {
      SpeakersAndListeners(cfg, ss, cmds, times, i - 1, roomId);
      AlwaysKeyed(cfg, ss, cmds, times, i - 1);
      StepOf(cfg, ss, cmds, times, i - 1);
      var change := Decide(cfg, ss[i - 1], cmds[i - 1], times[i - 1]);
      SpeakersStep(ss[i - 1], change, times[i - 1], roomId);
      ListenersStep(ss[i - 1], change, times[i - 1], roomId);
    } else {
      NobodyAtFirst(ss[0], roomId);
    }
  }

  lemma NobodyAtFirst(s: State, roomId: string)
    requires Empty(s)
    ensures SpeakersIn(s.participants, roomId) == TokenHolders(s.grants, roomId)
    ensures ListenersIn(s.sessions, roomId) == JoinedUsers(s.events, roomId)
  {
  }

  // ----- The report -----

  /**
   The report of a reachable state, read off the log, the tokens and the sessions: listeners are the users of the
   join events and joins those events, speakers the holders of tokens, and the peak is the current number of active
   sessions.
   */
  lemma ReportCountsPeople(cfg: ServiceConfig, ss: seq<State>, cmds: seq<Command>, times: seq<Time>, i: nat,
                           roomId: string, now: Time)
    requires Run(cfg, ss, cmds, times) && i < |ss|
    ensures var stats := StatsOf(ss[i], roomId, now);
            && stats.uniqueListeners == |JoinedUsers(ss[i].events, roomId)| <= stats.totalJoinEvents
            && stats.uniqueSpeakers == |TokenHolders(ss[i].grants, roomId)|
            && stats.totalJoinEvents == JoinEvents(ss[i].events, roomId)
            && stats.peakConcurrentListeners == |ActiveIn(ss[i].sessions, roomId)|
            && stats.totalSpeakingSeconds == 0
  {
    hide Run, TotalSeconds;
    SessionsMatchJoinEvents(cfg, ss, cmds, times, i, roomId);
    SpeakersAndListeners(cfg, ss, cmds, times, i, roomId);
    UsersAtMostSessions(ss[i].sessions, SessionsIn(ss[i].sessions, roomId));
  }

  /**
   Its listening time: the whole seconds of every stay, from joining to leaving for a session that has left and to
   now for one that is still active, so the exact time is less than a second more for each join.
   */
  lemma ReportMeansWhatItSays(cfg: ServiceConfig, ss: seq<State>, cmds: seq<Command>, times: seq<Time>, i: nat,
                              roomId: string, now: Time)
    requires Run(cfg, ss, cmds, times) && i < |ss| && Since(times, i, now)
    ensures var stats := StatsOf(ss[i], roomId, now); var stays := Stays(ss[i].sessions, roomId, now);
            && (forall id :: id in stays ==> stays[id] >= 0)
            && stats.totalListeningSeconds == Sum(Floored(stays))
            && stats.totalListeningSeconds * SECOND <= Sum(stays)
            && (stats.totalJoinEvents > 0 ==>
                  Sum(stays) < (stats.totalListeningSeconds + stats.totalJoinEvents) * SECOND)
  {
    hide Run, TotalSeconds, Sum;
    AlwaysDated(cfg, ss, cmds, times, i, now);
    TotalIsOfStays(ss[i].sessions, roomId, now);
    RoundingLoss(Stays(ss[i].sessions, roomId, now));
  }

  lemma NobodyActive(s: State, roomId: string)
    requires RoomLaws.Sound(s) && ActiveIn(s.sessions, roomId) == {}
    ensures forall id :: id in SessionsIn(s.sessions, roomId) ==> s.sessions[id].leftAt.Some?
  {
    forall id | id in SessionsIn(s.sessions, roomId)
      ensures s.sessions[id].leftAt.Some?
    {
      RoomLaws.EndedHasLeft(s, id);
      assert id !in ActiveIn(s.sessions, roomId);
    }
  }

  /** Once nobody listens any more, a report says the same whenever it is made. */
  lemma QuietRoomReportsTheSame(cfg: ServiceConfig, ss: seq<State>, cmds: seq<Command>, times: seq<Time>, i: nat,
                                roomId: string, now: Time, later: Time)
    requires Run(cfg, ss, cmds, times) && i < |ss| && ActiveIn(ss[i].sessions, roomId) == {}
    ensures StatsOf(ss[i], roomId, now) == StatsOf(ss[i], roomId, later)
  {
    hide Run, TotalSeconds, Sum, RoomLaws.Sound;
    AlwaysDated(cfg, ss, cmds, times, i, if 0 < i <= |times| then times[i - 1] else 0);
    RoomLaws.AlwaysSound(cfg, ss, cmds, times, i);
    NobodyActive(ss[i], roomId);
    TotalIsOfStays(ss[i].sessions, roomId, now);
    TotalIsOfStays(ss[i].sessions, roomId, later);
    assert Stays(ss[i].sessions, roomId, now) == Stays(ss[i].sessions, roomId, later);
  }
}
