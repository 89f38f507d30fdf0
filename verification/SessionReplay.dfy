/** Listener sessions read off the event log: when the record it yields is the stored one. */
module SessionReplay {
  import opened Base
  import opened VoiceTypes
  import opened VoiceState
  import opened VoiceRuns
  import opened VoiceLaws
  import EventReplay
  import Text
  import Do = VoiceCommands

  type Sessions = map<string, ListenerSession>

  /** The removal of a user concerns their sessions in the room that are still open as far as the log knows. */
  predicate Concerns(session: ListenerSession, roomId: string, userId: string) {
    session.roomId == roomId && session.userId == userId && session.status == SessionActive
  }

  function LearnSession(t: Sessions, e: Event): Sessions {
    match e.payload
    case OfSession(session) => t[session.id := session]
    case OfTarget(userId, reason) =>
      if e.eventType != UserRemoved then t
      else
        map id | id in t ::
          if Concerns(t[id], e.roomId, userId) then Do.RemovedBy(t[id], e.actorUserId, reason, e.occurredAt) else t[id]
    case _ => t
  }

  function ReplaySessions(events: seq<Event>): Sessions {
    if events == [] then map[]
    else LearnSession(ReplaySessions(events[..|events| - 1]), events[|events| - 1])
  }

  lemma ReplaySessionsOneMore(events: seq<Event>, e: Event)
    ensures ReplaySessions(events + [e]) == LearnSession(ReplaySessions(events), e)
  {
    assert (events + [e])[..|events|] == events;
  }

  /** The command writes that session. */
  predicate Touches(change: Change, id: string) {
    || (change.PutListener? && change.session.id == id)
    || (change.EndListeners? && exists k :: 0 <= k < |change.ended| && change.ended[k].id == id)
  }

  /** The last command before state `i` that wrote the session. */
  ghost function LastWriter(cfg: ServiceConfig, ss: seq<State>, cmds: seq<Command>, times: seq<Time>, i: nat, id: string)
    : Option<Command>
    requires Run(cfg, ss, cmds, times) && i < |ss|
    decreases i
  {
    if i == 0 then None
    else if Touches(Decide(cfg, ss[i - 1], cmds[i - 1], times[i - 1]), id) then Some(cmds[i - 1])
    else LastWriter(cfg, ss, cmds, times, i - 1, id)
  }

  /** How a command tells the log of the sessions it writes: with the record, with another leaving time, or not at all. */
  datatype Telling = Exactly | AtAnotherTime | NotAtAll

  function TellingOf(cmd: Command): Telling {
    if cmd.CloseRoomSessions? then NotAtAll
    else if cmd.RemoveParticipant? && cmd.lag != 0 then AtAnotherTime
    else Exactly
  }

  function ToldBy(writer: Option<Command>): Telling {
    if writer.Some? then TellingOf(writer.value) else Exactly
  }

  /** The two records agree on everything but when the session was left and updated. */
  predicate SameButTimes(a: ListenerSession, b: ListenerSession) {
    a == b.(leftAt := a.leftAt, updatedAt := a.updatedAt)
  }

  /** What a reader of the log holds for a session, by how it was last told of. */
  predicate Tells(t: Sessions, sessions: Sessions, id: string, telling: Telling) {
    && (id in t <==> id in sessions)
    && (id in sessions ==>
          match telling
          case Exactly => t[id] == sessions[id]
          case AtAnotherTime =>
            && SameButTimes(t[id], sessions[id]) && t[id].leftAt != sessions[id].leftAt
            && t[id].status == SessionRemoved
          case NotAtAll => sessions[id].status == SessionLeft && t[id].status in {SessionActive, SessionRemoved})
  }

  // ----- What the commands that end sessions tell -----

  /** One event for each ended session, with its record. */
  predicate EachTold(ended: seq<ListenerSession>, told: seq<Event>) {
    |told| == |ended| && forall k :: 0 <= k < |told| ==> told[k].payload == OfSession(ended[k])
  }

  lemma {:induction false} ReplayTold(events: seq<Event>, ended: seq<ListenerSession>, told: seq<Event>, id: string)
    requires EachTold(ended, told) && forall i, j :: 0 <= i < j < |ended| ==> ended[i].id != ended[j].id
    ensures id in ReplaySessions(events + told)
       <==> id in ReplaySessions(events) || exists k :: 0 <= k < |ended| && ended[k].id == id
    ensures forall k :: 0 <= k < |ended| && ended[k].id == id ==> ReplaySessions(events + told)[id] == ended[k]
    ensures id in ReplaySessions(events) && (forall k :: 0 <= k < |ended| ==> ended[k].id != id) ==>
              ReplaySessions(events + told)[id] == ReplaySessions(events)[id]
  {
    hide ReplaySessions;
    if told == [] {
      assert events + told == events;
    } else {
      var n := |told| - 1;
      ReplayTold(events, ended[..n], told[..n], id);
      assert events + told == (events + told[..n]) + [told[n]];
      ReplaySessionsOneMore(events + told[..n], told[n]);
      assert forall k :: 0 <= k < n ==> ended[..n][k] == ended[k];
    }
  }

  lemma TellsAfterEnds(s: State, ended: seq<ListenerSession>, told: seq<Event>, id: string, telling: Telling)
    requires Tells(ReplaySessions(s.events), s.sessions, id, telling) && EachTold(ended, told)
    requires forall i :: 0 <= i < |ended| ==> ended[i].id in s.sessions
    requires forall i, j :: 0 <= i < j < |ended| ==> ended[i].id != ended[j].id
    ensures var s' := Write(s, EndListeners(ended, told));
            Tells(ReplaySessions(s'.events), s'.sessions, id, if Touches(EndListeners(ended, told), id) then Exactly else telling)
  {
    hide EndSession, ReplaySessions;
    EndSessionsFrame(s, ended);
    EndSessionsEffect(s, ended);
    ReplayTold(s.events, ended, told, id);
    var after := EndSessions(s, ended).sessions;
    assert forall k :: 0 <= k < |ended| ==> after[ended[k].id] == ended[k];
  }

  function Removing(now: Time, told: Time): Telling {
    if told == now then Exactly else AtAnotherTime
  }

  lemma TellsAfterRemoval(s: State, roomId: string, actor: string, target: string, reason: string, order: seq<string>,
                          now: Time, told: Time, id: string, telling: Telling)
    requires Keyed(s) && Do.Lists(order, ActiveOf(s.sessions, roomId, target))
    requires Tells(ReplaySessions(s.events), s.sessions, id, telling)
    ensures var change := EndListeners(Do.RemoveEach(s, order, actor, reason, now),
                                       [Event(UserRemoved, roomId, actor, target, told, OfTarget(target, reason))]);
            var s' := Write(s, change);
            Tells(ReplaySessions(s'.events), s'.sessions, id, if Touches(change, id) then Removing(now, told) else telling)
  {
    hide EndSession, ReplaySessions, Do.RemovedBy;
    var ended := Do.RemoveEach(s, order, actor, reason, now);
    var e := Event(UserRemoved, roomId, actor, target, told, OfTarget(target, reason));
    RemovedKeepIds(s, order, actor, reason, now);
    EndSessionsFrame(s, ended);
    EndSessionsEffect(s, ended);
    ReplaySessionsOneMore(s.events, e);
    RemovalTold(s.sessions, ReplaySessions(s.events), EndSessions(s, ended).sessions, ended, e, now, id, telling, order);
  }

  lemma RemovedKeepIds(s: State, order: seq<string>, actor: string, reason: string, now: Time)
    requires Keyed(s) && forall i :: 0 <= i < |order| ==> order[i] in s.sessions
    ensures var ended := Do.RemoveEach(s, order, actor, reason, now);
            forall i :: 0 <= i < |ended| ==>
              && ended[i].id == order[i] && ended[i] == Do.RemovedBy(s.sessions[order[i]], actor, reason, now)
              && ended[i].status == SessionRemoved
  {
  }

  lemma RemovalTold(before: Sessions, t: Sessions, after: Sessions, ended: seq<ListenerSession>, e: Event, now: Time,
                    id: string, telling: Telling, order: seq<string>)
    requires e.eventType == UserRemoved && e.payload.OfTarget?
    requires Tells(t, before, id, telling) && Replaces(before, ended, after)
    requires Do.Lists(order, ActiveOf(before, e.roomId, e.payload.userId)) && |ended| == |order|
    requires forall i :: 0 <= i < |order| ==>
               && order[i] in before && ended[i].id == order[i]
               && ended[i] == Do.RemovedBy(before[order[i]], e.actorUserId, e.payload.reason, now)
    ensures Tells(LearnSession(t, e), after, id,
                  if Touches(EndListeners(ended, [e]), id) then Removing(now, e.occurredAt) else telling)
  {
    if id in before && Concerns(before[id], e.roomId, e.payload.userId) {
      assert id in ActiveOf(before, e.roomId, e.payload.userId);
      var i :| 0 <= i < |order| && order[i] == id;
      assert after[ended[i].id] == ended[i];
    } else {
      forall i | 0 <= i < |ended|
        ensures ended[i].id != id
      {
        assert order[i] in ActiveOf(before, e.roomId, e.payload.userId);
      }
    }
  }

  lemma TellsAfterClose(s: State, roomId: string, order: seq<string>, now: Time, id: string, telling: Telling)
    requires Keyed(s) && Do.Lists(order, ActiveIn(s.sessions, roomId))
    requires Tells(ReplaySessions(s.events), s.sessions, id, telling)
    ensures var change := Do.CloseRoomSessions(s, roomId, order, now); var s' := Write(s, change);
            Tells(ReplaySessions(s'.events), s'.sessions, id, if Touches(change, id) then NotAtAll else telling)
  {
    hide EndSession, ReplaySessions;
    var ended := Do.CloseEach(s, order, now);
    CloseIsLegal(s, roomId, order, now);
    EndSessionsFrame(s, ended);
    EndSessionsEffect(s, ended);
    var after := EndSessions(s, ended).sessions;
    assert s.events + [] == s.events;
    if k :| 0 <= k < |ended| && ended[k].id == id {
      assert after[ended[k].id] == ended[k] && order[k] in ActiveIn(s.sessions, roomId);
    }
  }

  // ----- Every command -----

  predicate EndsSessions(cmd: Command) {
    cmd.LeaveListener? || cmd.RemoveParticipant? || cmd.ExpireStale? || cmd.CloseRoomSessions?
  }

  lemma OthersEndNone(cfg: ServiceConfig, s: State, cmd: Command, now: Time)
    requires Possible(s, cmd) && !EndsSessions(cmd)
    ensures !Decide(cfg, s, cmd, now).EndListeners?
  {
    hide Do.ModeratedRoom, Do.NewRoom, Do.RoleOf;
  }

  lemma TellsAfterOthers(s: State, change: Change, now: Time, id: string, telling: Telling)
    requires Legal(s, change, now) && !change.EndListeners? && Tells(ReplaySessions(s.events), s.sessions, id, telling)
    ensures Tells(ReplaySessions(Write(s, change).events), Write(s, change).sessions, id,
                  if Touches(change, id) then Exactly else telling)
  {
    hide ReplaySessions, StatsOf, Do.RoleOf, ListenerPresent, ParticipantPresent, LegalRecording, LegalSpeaker;
    EventReplay.EventsCarryRecords(s, change, now);
    match change
    case PutRoom(_, e, _) => ReplaySessionsOneMore(s.events, e);
    case PutRecording(_, _, e) => RecordingSilent(s, change, now); ReplaySessionsOneMore(s.events, e);
    case PutListener(_, e) => ReplaySessionsOneMore(s.events, e);
    case PutRequest(_, e) => ReplaySessionsOneMore(s.events, e);
    case PutBlock(_, e) => ReplaySessionsOneMore(s.events, e);
    case PutReport(_, e) => ReplaySessionsOneMore(s.events, e);
    case Tell(e) => ReplaySessionsOneMore(s.events, e);
    case _ =>
  }

  lemma RecordingSilent(s: State, change: Change, now: Time)
    requires Legal(s, change, now) && change.PutRecording?
    ensures change.event.payload.OfRecording?
  {
  }

  lemma LeaveTold(s: State, roomId: string, sessionId: string, userId: string, leaveType: string, now: Time)
    requires Keyed(s)
    ensures var change := Do.LeaveListener(s, roomId, sessionId, userId, leaveType, now).0;
            change.EndListeners? ==>
              && EachTold(change.ended, change.told) && |change.ended| == 1 && change.ended[0].id in s.sessions
  {
    hide Text.TrimSpace;
  }

  lemma ExpiryTold(s: State, cutoff: Time, limit: int, order: seq<string>, now: Time)
    requires Keyed(s) && Do.ListsStale(order, Stale(s.sessions, cutoff), Do.EffectiveLimit(limit))
    ensures var change := Do.ExpireStale(s, cutoff, limit, order, now).0;
            && change.EndListeners? && EachTold(change.ended, change.told)
            && (forall i :: 0 <= i < |change.ended| ==> change.ended[i].id in s.sessions)
            && (forall i, j :: 0 <= i < j < |change.ended| ==> change.ended[i].id != change.ended[j].id)
  {
  }

  lemma NothingTouches(id: string)
    ensures !Touches(Nothing, id)
  {
  }

  lemma TellsStep(cfg: ServiceConfig, s: State, cmd: Command, now: Time, id: string, telling: Telling)
    requires Keyed(s) && Possible(s, cmd) && Tells(ReplaySessions(s.events), s.sessions, id, telling)
    ensures var change := Decide(cfg, s, cmd, now); var s' := Write(s, change);
            Tells(ReplaySessions(s'.events), s'.sessions, id, if Touches(change, id) then TellingOf(cmd) else telling)
  {
    hide Keyed, Legal, Write, Tells, Touches, ReplaySessions, EachTold, Do.Lists, Do.ListsStale, Do.CloseRoomSessions,
         Do.ExpireStale, Do.LeaveListener, Do.RemoveEach, ActiveOf, ActiveIn, Stale, Do.ModeratedRoom;
    match cmd
    case LeaveListener(roomId, sessionId, userId, leaveType) =>
      LeaveTold(s, roomId, sessionId, userId, leaveType, now);
      var change := Do.LeaveListener(s, roomId, sessionId, userId, leaveType, now).0;
      if change.EndListeners? {
        TellsAfterEnds(s, change.ended, change.told, id, telling);
      } else {
        DecisionsAreLegal(cfg, s, cmd, now);
        TellsAfterOthers(s, change, now, id, telling);
      }
    case ExpireStale(cutoff, limit, order) =>
      ExpiryTold(s, cutoff, limit, order, now);
      var change := Do.ExpireStale(s, cutoff, limit, order, now).0;
      TellsAfterEnds(s, change.ended, change.told, id, telling);
    case RemoveParticipant(roomId, actor, target, reason, order, lag) =>
      if Do.ModeratedRoom(s, roomId, actor).Ok? {
        TellsAfterRemoval(s, roomId, actor, target, reason, order, now, now + lag, id, telling);
      } else {
        DecisionsAreLegal(cfg, s, cmd, now);
        TellsAfterOthers(s, Nothing, now, id, telling);
        NothingTouches(id);
      }
    case CloseRoomSessions(roomId, order) => TellsAfterClose(s, roomId, order, now, id, telling);
    case _ => OtherTells(cfg, s, cmd, now, id, telling);
  }

  lemma OtherTells(cfg: ServiceConfig, s: State, cmd: Command, now: Time, id: string, telling: Telling)
    requires Keyed(s) && Possible(s, cmd) && !EndsSessions(cmd) && Tells(ReplaySessions(s.events), s.sessions, id, telling)
    ensures var change := Decide(cfg, s, cmd, now); var s' := Write(s, change);
            Tells(ReplaySessions(s'.events), s'.sessions, id, if Touches(change, id) then Exactly else telling)
  {
    OthersEndNone(cfg, s, cmd, now);
    hide Keyed, Legal, Write, Tells, Touches, ReplaySessions, Decide, Possible;
    DecisionsAreLegal(cfg, s, cmd, now);
    TellsAfterOthers(s, Decide(cfg, s, cmd, now), now, id, telling);
  }

  lemma {:induction false} AlwaysTells(cfg: ServiceConfig, ss: seq<State>, cmds: seq<Command>, times: seq<Time>, i: nat,
                                       id: string)
    requires Run(cfg, ss, cmds, times) && i < |ss|
    ensures Tells(ReplaySessions(ss[i].events), ss[i].sessions, id, ToldBy(LastWriter(cfg, ss, cmds, times, i, id)))
  {
    hide Run, Keyed, Legal, Write, Decide, Tells, Touches, ReplaySessions, Empty, Possible;
    RunShape(cfg, ss, cmds, times);
    if i == 0 {
      NothingTold(ss[0], id);
    } else {
      AlwaysTells(cfg, ss, cmds, times, i - 1, id);
      AlwaysKeyed(cfg, ss, cmds, times, i - 1);
      StepOf(cfg, ss, cmds, times, i - 1);
      TellsStep(cfg, ss[i - 1], cmds[i - 1], times[i - 1], id,
                ToldBy(LastWriter(cfg, ss, cmds, times, i - 1, id)));
    }
  }

  lemma NothingTold(s: State, id: string)
    requires Empty(s)
    ensures Tells(ReplaySessions(s.events), s.sessions, id, Exactly)
  {
  }

  /**
   In every reachable state the log tells of exactly the stored sessions, and the record it yields for one is the
   stored record if and only if the last command that wrote the session was neither a room close nor a removal whose
   event was stamped at another instant than its records.
   */
  lemma SessionToldIff(cfg: ServiceConfig, ss: seq<State>, cmds: seq<Command>, times: seq<Time>, i: nat, id: string)
    requires Run(cfg, ss, cmds, times) && i < |ss|
    ensures id in ReplaySessions(ss[i].events) <==> id in ss[i].sessions
    ensures id in ss[i].sessions ==>
              (ReplaySessions(ss[i].events)[id] == ss[i].sessions[id]
               <==> match LastWriter(cfg, ss, cmds, times, i, id)
                    case Some(cmd) => !cmd.CloseRoomSessions? && (cmd.RemoveParticipant? ==> cmd.lag == 0)
                    case None => true)
  {
    hide Run, LastWriter, ReplaySessions;
    AlwaysTells(cfg, ss, cmds, times, i, id);
  }

  /** After a removal the log yields the stored record but for the leaving and update times, which it was never told. */
  lemma RemovalToldButTimes(cfg: ServiceConfig, ss: seq<State>, cmds: seq<Command>, times: seq<Time>, i: nat, id: string)
    requires Run(cfg, ss, cmds, times) && i < |ss| && id in ss[i].sessions
    requires LastWriter(cfg, ss, cmds, times, i, id).Some? && LastWriter(cfg, ss, cmds, times, i, id).value.RemoveParticipant?
    ensures id in ReplaySessions(ss[i].events)
    ensures SameButTimes(ReplaySessions(ss[i].events)[id], ss[i].sessions[id])
  {
    hide Run, LastWriter, ReplaySessions;
    AlwaysTells(cfg, ss, cmds, times, i, id);
  }
}
