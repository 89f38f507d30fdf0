/** The presence sets are a second copy of who is in a room; here they are proved to agree with the store. */
module PresenceLaws {
  import opened Base
  import opened VoiceTypes
  import opened VoiceState
  import opened VoiceRuns
  import opened VoiceLaws

  predicate IsActiveIn(sessions: map<string, ListenerSession>, roomId: string, id: string) {
    id in sessions && sessions[id].roomId == roomId && sessions[id].status == SessionActive
  }

  predicate TakesPartIn(participants: map<string, ParticipantSession>, roomId: string, id: string) {
    id in participants && participants[id].roomId == roomId && participants[id].status == ParticipantActive
  }

  ghost predicate ListenersAgree(sessions: map<string, ListenerSession>, present: map<string, set<string>>) {
    forall roomId, id :: id in Members(present, roomId) <==> IsActiveIn(sessions, roomId, id)
  }

  ghost predicate ParticipantsAgree(participants: map<string, ParticipantSession>, present: map<string, set<string>>) {
    forall roomId, id :: id in Members(present, roomId) <==> TakesPartIn(participants, roomId, id)
  }

  /** Each room's presence sets hold exactly the ids of its active sessions. */
  ghost predicate PresenceAgrees(s: State) {
    s.presence.Some? ==>
      && ListenersAgree(s.sessions, s.presence.value.listeners)
      && ParticipantsAgree(s.participants, s.presence.value.participants)
  }

  lemma AgreeAfterArrival(sessions: map<string, ListenerSession>, present: map<string, set<string>>, session: ListenerSession)
    requires ListenersAgree(sessions, present) && session.status == SessionActive
    requires session.id in sessions ==> sessions[session.id].roomId == session.roomId
    ensures ListenersAgree(sessions[session.id := session], Added(present, session.roomId, session.id))
  {
    var sessions', present' := sessions[session.id := session], Added(present, session.roomId, session.id);
    forall roomId, id
      ensures id in Members(present', roomId) <==> IsActiveIn(sessions', roomId, id)
    {
      assert id in Members(present, roomId) <==> IsActiveIn(sessions, roomId, id);
    }
  }

  lemma AgreeAfterEnd(sessions: map<string, ListenerSession>, present: map<string, set<string>>, session: ListenerSession)
    requires ListenersAgree(sessions, present) && session.status != SessionActive
    requires session.id in sessions && sessions[session.id].roomId == session.roomId
    ensures ListenersAgree(sessions[session.id := session], Removed(present, session.roomId, session.id))
  {
    var sessions', present' := sessions[session.id := session], Removed(present, session.roomId, session.id);
    forall roomId, id
      ensures id in Members(present', roomId) <==> IsActiveIn(sessions', roomId, id)
    {
      assert id in Members(present, roomId) <==> IsActiveIn(sessions, roomId, id);
    }
  }

  lemma AgreeAfterAdmission(participants: map<string, ParticipantSession>, present: map<string, set<string>>,
                            p: ParticipantSession)
    requires ParticipantsAgree(participants, present) && p.status == ParticipantActive && p.id !in participants
    ensures ParticipantsAgree(participants[p.id := p], Added(present, p.roomId, p.id))
  {
    var participants', present' := participants[p.id := p], Added(present, p.roomId, p.id);
    forall roomId, id
      ensures id in Members(present', roomId) <==> TakesPartIn(participants', roomId, id)
    {
      assert id in Members(present, roomId) <==> TakesPartIn(participants, roomId, id);
    }
  }

  lemma {:induction false} AgreeAfterEnds(s: State, ended: seq<ListenerSession>)
    requires PresenceAgrees(s)
    requires forall i :: 0 <= i < |ended| ==>
               && ended[i].id in s.sessions && ended[i].status != SessionActive
               && s.sessions[ended[i].id].roomId == ended[i].roomId
    ensures PresenceAgrees(EndSessions(s, ended))
    ensures forall id :: id in s.sessions ==>
              id in EndSessions(s, ended).sessions && EndSessions(s, ended).sessions[id].roomId == s.sessions[id].roomId
  {
    if ended != [] {
      hide ListenersAgree, ParticipantsAgree, Removed;
      var earlier, last := EndSessions(s, ended[..|ended| - 1]), ended[|ended| - 1];
      AgreeAfterEnds(s, ended[..|ended| - 1]);
      AgreeKeepsPresence(s, ended[..|ended| - 1]);
      if s.presence.Some? {
        AgreeAfterEnd(earlier.sessions, earlier.presence.value.listeners, last);
      }
    }
  }

  lemma {:induction false} AgreeKeepsPresence(s: State, ended: seq<ListenerSession>)
    ensures EndSessions(s, ended).presence.Some? <==> s.presence.Some?
  {
    if ended != [] {
      AgreeKeepsPresence(s, ended[..|ended| - 1]);
    }
  }

  lemma PresenceStep(s: State, change: Change, now: Time)
    requires PresenceAgrees(s) && Legal(s, change, now)
    ensures PresenceAgrees(Write(s, change))
  {
    hide ListenersAgree, ParticipantsAgree, Added;
    hide LegalRoom, LegalRecording, LegalRequest, LegalBlock, LegalReport;
    match change
    case PutSpeaker(p) =>
      if s.presence.Some? {
        AgreeAfterAdmission(s.participants, s.presence.value.participants, p);
      }
    case PutListener(session, e) =>
      if s.presence.Some? {
        AgreeAfterArrival(s.sessions, s.presence.value.listeners, session);
      }
    case EndListeners(ended, told) => AgreeAfterEnds(s, ended);
    case _ =>
  }

  lemma NobodyPresent(s: State)
    requires Empty(s)
    ensures PresenceAgrees(s)
  {
  }

  lemma {:induction false} PresenceAlwaysAgrees(cfg: ServiceConfig, ss: seq<State>, cmds: seq<Command>, times: seq<Time>,
                                                i: nat)
    requires Run(cfg, ss, cmds, times) && i < |ss|
    ensures PresenceAgrees(ss[i])
  {
    hide Run, Legal, PresenceAgrees, Keyed, Write, Decide, Empty;
    RunShape(cfg, ss, cmds, times);
    if i == 0 {
      NobodyPresent(ss[0]);
    } else {
      PresenceAlwaysAgrees(cfg, ss, cmds, times, i - 1);
      AlwaysKeyed(cfg, ss, cmds, times, i - 1);
      StepOf(cfg, ss, cmds, times, i - 1);
      PresenceStep(ss[i - 1], Decide(cfg, ss[i - 1], cmds[i - 1], times[i - 1]), times[i - 1]);
    }
  }

  /** Listeners and LiveKit participants of a room, from the presence sets when there are any, else from the store. */
  function ActiveCounts(s: State, roomId: string): (nat, nat) {
    match s.presence
    case Some(p) => (|Members(p.listeners, roomId)|, |Members(p.participants, roomId)|)
    case None => (|ActiveIn(s.sessions, roomId)|, |ParticipantsIn(s.participants, roomId)|)
  }

  /** In every reachable state a room's presence sets are its active sessions, so the counts do not depend on the source. */
  lemma CountsDoNotDependOnPresence(cfg: ServiceConfig, ss: seq<State>, cmds: seq<Command>, times: seq<Time>, i: nat,
                                    roomId: string)
    requires Run(cfg, ss, cmds, times) && i < |ss|
    ensures ss[i].presence.Some? ==>
              && Members(ss[i].presence.value.listeners, roomId) == ActiveIn(ss[i].sessions, roomId)
              && Members(ss[i].presence.value.participants, roomId) == ParticipantsIn(ss[i].participants, roomId)
    ensures ActiveCounts(ss[i], roomId) == ActiveCounts(ss[i].(presence := None), roomId)
  {
    PresenceAlwaysAgrees(cfg, ss, cmds, times, i);
    if ss[i].presence.Some? {
      var p := ss[i].presence.value;
      forall id
        ensures id in Members(p.listeners, roomId) <==> id in ActiveIn(ss[i].sessions, roomId)
        ensures id in Members(p.participants, roomId) <==> id in ParticipantsIn(ss[i].participants, roomId)
      {
        assert id in Members(p.listeners, roomId) <==> IsActiveIn(ss[i].sessions, roomId, id);
        assert id in Members(p.participants, roomId) <==> TakesPartIn(ss[i].participants, roomId, id);
      }
    }
  }
}
