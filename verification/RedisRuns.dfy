/** The Redis room sets over whole runs of the service: they show the same sessions as the in-memory presence store. */
module RedisRuns {
  import opened Base
  import opened VoiceTypes
  import opened VoiceState
  import opened VoiceRuns
  import VoiceLaws
  import PresenceLaws
  import opened PresenceStores

  function Departures(keys: KeySpace, ended: seq<ListenerSession>): KeySpace {
    if ended == [] then keys
    else
      var last := ended[|ended| - 1];
      ListenerDeparts(Departures(keys, ended[..|ended| - 1]), last.roomId, last.id)
  }

  /** What a command's presence calls do to the key space. */
  function KeysAfter(keys: KeySpace, change: Change): KeySpace {
    match change
    case PutSpeaker(p) => ParticipantArrives(keys, p.roomId, p.id)
    case PutListener(session, _) => ListenerArrives(keys, session.roomId, session.id)
    case EndListeners(ended, _) => Departures(keys, ended)
    case _ => keys
  }

  lemma {:induction false} ShowsAfterEnds(s: State, keys: KeySpace, ended: seq<ListenerSession>)
    requires s.presence.Some? && Shows(keys, s.presence.value)
    ensures EndSessions(s, ended).presence.Some?
    ensures Shows(Departures(keys, ended), EndSessions(s, ended).presence.value)
  {
    hide Shows, ListenerDeparts, Removed;
    if ended != [] {
      var earlier, last := ended[..|ended| - 1], ended[|ended| - 1];
      ShowsAfterEnds(s, keys, earlier);
      RedisRefinesDepartures(Departures(keys, earlier), EndSessions(s, earlier).presence.value, last.roomId, last.id);
    }
  }

  lemma ShowsAfterWrite(s: State, keys: KeySpace, change: Change)
    requires s.presence.Some? && Shows(keys, s.presence.value)
    ensures Write(s, change).presence.Some? && Shows(KeysAfter(keys, change), Write(s, change).presence.value)
  {
    hide Shows, ListenerArrives, ParticipantArrives, Added;
    match change
    case PutSpeaker(p) => RedisRefinesArrivals(keys, s.presence.value, p.roomId, p.id);
    case PutListener(session, _) => RedisRefinesArrivals(keys, s.presence.value, session.roomId, session.id);
    case EndListeners(ended, told) =>
      VoiceLaws.EndSessionsFrame(s, ended);
      ShowsAfterEnds(s, keys, ended);
    case _ =>
  }

  /** The key space beside a run: empty at first, and then what each command's presence calls make of it. */
  ghost predicate KeysBeside(cfg: ServiceConfig, ss: seq<State>, cmds: seq<Command>, times: seq<Time>, kss: seq<KeySpace>)
    requires Run(cfg, ss, cmds, times)
  {
    && |kss| == |ss| && kss[0] == map[]
    && forall i :: 0 <= i < |cmds| ==> kss[i + 1] == KeysAfter(kss[i], Decide(cfg, ss[i], cmds[i], times[i]))
  }

  lemma KeysBesideAt(cfg: ServiceConfig, ss: seq<State>, cmds: seq<Command>, times: seq<Time>, kss: seq<KeySpace>)
    requires Run(cfg, ss, cmds, times) && KeysBeside(cfg, ss, cmds, times, kss)
    ensures |ss| == |cmds| + 1 == |times| + 1 == |kss| && Empty(ss[0]) && kss[0] == map[]
    ensures forall i :: 0 <= i < |cmds| ==>
              && Possible(ss[i], cmds[i])
              && ss[i + 1] == Write(ss[i], Decide(cfg, ss[i], cmds[i], times[i]))
              && kss[i + 1] == KeysAfter(kss[i], Decide(cfg, ss[i], cmds[i], times[i]))
  {
    hide Empty, Possible, Write, Decide, KeysAfter;
  }

  lemma NoKeysAtFirst(s: State)
    requires Empty(s) && s.presence.Some?
    ensures Shows(map[], s.presence.value)
  {
  }

  lemma {:induction false} RedisAlwaysShows(cfg: ServiceConfig, ss: seq<State>, cmds: seq<Command>, times: seq<Time>,
                                            kss: seq<KeySpace>, i: nat)
    requires Run(cfg, ss, cmds, times) && KeysBeside(cfg, ss, cmds, times, kss) && i < |ss|
    requires ss[0].presence.Some?
    ensures i < |kss| && ss[i].presence.Some? && Shows(kss[i], ss[i].presence.value)
  {
    hide Run, KeysBeside, Shows, Empty, Possible, Write, Decide, KeysAfter;
    KeysBesideAt(cfg, ss, cmds, times, kss);
    if i == 0 {
      NoKeysAtFirst(ss[0]);
    } else {
      RedisAlwaysShows(cfg, ss, cmds, times, kss, i - 1);
      ShowsAfterWrite(ss[i - 1], kss[i - 1], Decide(cfg, ss[i - 1], cmds[i - 1], times[i - 1]));
    }
  }

  /** In every reachable state the two Redis sets of a room hold exactly its active listeners and participants. */
  lemma RedisCountsActiveSessions(cfg: ServiceConfig, ss: seq<State>, cmds: seq<Command>, times: seq<Time>,
                                  kss: seq<KeySpace>, i: nat, roomId: string)
    requires Run(cfg, ss, cmds, times) && KeysBeside(cfg, ss, cmds, times, kss) && i < |ss|
    requires ss[0].presence.Some?
    ensures i < |kss|
    ensures SMembers(kss[i], RoomListenersKey(roomId)) == ActiveIn(ss[i].sessions, roomId)
    ensures SMembers(kss[i], RoomParticipantsKey(roomId)) == ParticipantsIn(ss[i].participants, roomId)
  {
    hide Run, KeysBeside;
    RedisAlwaysShows(cfg, ss, cmds, times, kss, i);
    PresenceLaws.CountsDoNotDependOnPresence(cfg, ss, cmds, times, i, roomId);
  }
}
