/** The two presence stores: nested maps in process memory, and room sets in one Redis key space. */
module PresenceStores {
  import opened VoiceState

  /** internal/infra/redis/noop.go */
  class NoopPresenceStore {
    var listeners: map<string, set<string>>
    var participants: map<string, set<string>>

    constructor ()
      ensures Value() == Presence(map[], map[])
    {
      listeners := map[];
      participants := map[];
    }

    function Value(): Presence
      reads this
    {
      Presence(listeners, participants)
    }

    method MarkListenerActive(roomId: string, sessionId: string)
      modifies `listeners
      ensures listeners == Added(old(listeners), roomId, sessionId)
    {
      if roomId !in listeners {
        listeners := listeners[roomId := {}];
      }
      listeners := listeners[roomId := listeners[roomId] + {sessionId}];
    }

    method TouchListener(roomId: string, sessionId: string)
      modifies `listeners
      ensures listeners == Added(old(listeners), roomId, sessionId)
    {
      if roomId !in listeners {
        listeners := listeners[roomId := {}];
      }
      listeners := listeners[roomId := listeners[roomId] + {sessionId}];
    }

    method MarkListenerInactive(roomId: string, sessionId: string)
      modifies `listeners
      ensures listeners == Removed(old(listeners), roomId, sessionId)
    {
      if roomId in listeners {
        listeners := listeners[roomId := listeners[roomId] - {sessionId}];
      }
    }

    method ActiveListenerCount(roomId: string) returns (count: nat)
      ensures count == |Members(listeners, roomId)|
    {
      count := if roomId in listeners then |listeners[roomId]| else 0;
    }

    method MarkParticipantActive(roomId: string, sessionId: string)
      modifies `participants
      ensures participants == Added(old(participants), roomId, sessionId)
    {
      if roomId !in participants {
        participants := participants[roomId := {}];
      }
      participants := participants[roomId := participants[roomId] + {sessionId}];
    }

    method MarkParticipantInactive(roomId: string, sessionId: string)
      modifies `participants
      ensures participants == Removed(old(participants), roomId, sessionId)
    {
      if roomId in participants {
        participants := participants[roomId := participants[roomId] - {sessionId}];
      }
    }

    method ActiveParticipantCount(roomId: string) returns (count: nat)
      ensures count == |Members(participants, roomId)|
    {
      count := if roomId in participants then |participants[roomId]| else 0;
    }
  }

  // ----- Redis sets -----

  /** Every key that holds a set; Redis drops a key with its last member. */
  type KeySpace = map<string, set<string>>

  function SMembers(keys: KeySpace, key: string): set<string> {
    if key in keys then keys[key] else {}
  }

  function SAdd(keys: KeySpace, key: string, member: string): KeySpace {
    keys[key := SMembers(keys, key) + {member}]
  }

  function SRem(keys: KeySpace, key: string, member: string): KeySpace {
    if key !in keys then keys
    else if keys[key] - {member} == {} then keys - {key}
    else keys[key := keys[key] - {member}]
  }

  function Del(keys: KeySpace, key: string): KeySpace {
    keys - {key}
  }

  function ListenerLastSeenKey(sessionId: string): string { "listener_session:" + sessionId + ":last_seen" }
  function ListenerStateKey(sessionId: string): string { "listener_session:" + sessionId + ":state" }
  function ParticipantStateKey(sessionId: string): string { "participant_session:" + sessionId + ":state" }
  function RoomListenersKey(roomId: string): string { "room:" + roomId + ":listeners" }
  function RoomParticipantsKey(roomId: string): string { "room:" + roomId + ":participants" }

  /** The key space shows each room's two sets under that room's two keys. */
  ghost predicate Shows(keys: KeySpace, p: Presence) {
    && (forall roomId :: SMembers(keys, RoomListenersKey(roomId)) == Members(p.listeners, roomId))
    && (forall roomId :: SMembers(keys, RoomParticipantsKey(roomId)) == Members(p.participants, roomId))
  }

  /** Room keys determine their room, never mix listeners with participants, and are no session's key. */
  lemma RoomKeysAreDistinct(a: string, b: string)
    ensures RoomListenersKey(a) == RoomListenersKey(b) ==> a == b
    ensures RoomParticipantsKey(a) == RoomParticipantsKey(b) ==> a == b
    ensures RoomListenersKey(a) != RoomParticipantsKey(b)
  {
    var la, lb := RoomListenersKey(a), RoomListenersKey(b);
    var pa, pb := RoomParticipantsKey(a), RoomParticipantsKey(b);
    assert la[5..5 + |a|] == a && lb[5..5 + |b|] == b;
    assert pa[5..5 + |a|] == a && pb[5..5 + |b|] == b;
    assert la[|la| - 2] == 'r' && pb[|pb| - 2] == 't';
  }

  lemma SessionKeysAreNoRooms(sessionId: string, roomId: string)
    ensures ListenerLastSeenKey(sessionId) !in {RoomListenersKey(roomId), RoomParticipantsKey(roomId)}
    ensures ListenerStateKey(sessionId) !in {RoomListenersKey(roomId), RoomParticipantsKey(roomId)}
    ensures ParticipantStateKey(sessionId) !in {RoomListenersKey(roomId), RoomParticipantsKey(roomId)}
  {
    assert RoomListenersKey(roomId)[0] == 'r' && RoomParticipantsKey(roomId)[0] == 'r';
    assert ListenerLastSeenKey(sessionId)[0] == 'l' && ListenerStateKey(sessionId)[0] == 'l';
    assert ParticipantStateKey(sessionId)[0] == 'p';
  }

  lemma SetsAfterAdd(keys: KeySpace, key: string, member: string, other: string)
    ensures SMembers(SAdd(keys, key, member), other)
         == SMembers(keys, other) + (if other == key then {member} else {})
  {
  }

  lemma SetsAfterRem(keys: KeySpace, key: string, member: string, other: string)
    ensures SMembers(SRem(keys, key, member), other)
         == SMembers(keys, other) - (if other == key then {member} else {})
  {
  }

  lemma SetsAfterDel(keys: KeySpace, key: string, other: string)
    requires other != key
    ensures SMembers(Del(keys, key), other) == SMembers(keys, other)
  {
  }

  function ListenerArrives(keys: KeySpace, roomId: string, sessionId: string): KeySpace {
    SAdd(keys, RoomListenersKey(roomId), sessionId)
  }

  function ListenerDeparts(keys: KeySpace, roomId: string, sessionId: string): KeySpace {
    SRem(Del(Del(keys, ListenerLastSeenKey(sessionId)), ListenerStateKey(sessionId)), RoomListenersKey(roomId), sessionId)
  }

  function ParticipantArrives(keys: KeySpace, roomId: string, sessionId: string): KeySpace {
    SAdd(keys, RoomParticipantsKey(roomId), sessionId)
  }

  function ParticipantDeparts(keys: KeySpace, roomId: string, sessionId: string): KeySpace {
    SRem(Del(keys, ParticipantStateKey(sessionId)), RoomParticipantsKey(roomId), sessionId)
  }

  /** The Redis store shows after each operation what the in-memory store holds after the same operation. */
  lemma RedisRefinesArrivals(keys: KeySpace, p: Presence, roomId: string, sessionId: string)
    requires Shows(keys, p)
    ensures Shows(ListenerArrives(keys, roomId, sessionId), p.(listeners := Added(p.listeners, roomId, sessionId)))
    ensures Shows(ParticipantArrives(keys, roomId, sessionId), p.(participants := Added(p.participants, roomId, sessionId)))
  {
    hide SAdd, SMembers, RoomListenersKey, RoomParticipantsKey;
    forall r
      ensures SMembers(ListenerArrives(keys, roomId, sessionId), RoomListenersKey(r))
           == Members(Added(p.listeners, roomId, sessionId), r)
      ensures SMembers(ListenerArrives(keys, roomId, sessionId), RoomParticipantsKey(r)) == Members(p.participants, r)
      ensures SMembers(ParticipantArrives(keys, roomId, sessionId), RoomParticipantsKey(r))
           == Members(Added(p.participants, roomId, sessionId), r)
      ensures SMembers(ParticipantArrives(keys, roomId, sessionId), RoomListenersKey(r)) == Members(p.listeners, r)
    {
      RoomKeysAreDistinct(roomId, r);
      RoomKeysAreDistinct(r, roomId);
      SetsAfterAdd(keys, RoomListenersKey(roomId), sessionId, RoomListenersKey(r));
      SetsAfterAdd(keys, RoomListenersKey(roomId), sessionId, RoomParticipantsKey(r));
      SetsAfterAdd(keys, RoomParticipantsKey(roomId), sessionId, RoomListenersKey(r));
      SetsAfterAdd(keys, RoomParticipantsKey(roomId), sessionId, RoomParticipantsKey(r));
    }
  }

  lemma SetsAfterListenerDeparts(keys: KeySpace, roomId: string, sessionId: string, r: string)
    ensures SMembers(ListenerDeparts(keys, roomId, sessionId), RoomListenersKey(r))
         == SMembers(keys, RoomListenersKey(r)) - (if r == roomId then {sessionId} else {})
    ensures SMembers(ListenerDeparts(keys, roomId, sessionId), RoomParticipantsKey(r)) == SMembers(keys, RoomParticipantsKey(r))
  {
    hide SRem, Del, SMembers, RoomListenersKey, RoomParticipantsKey, ListenerLastSeenKey, ListenerStateKey;
    var once := Del(keys, ListenerLastSeenKey(sessionId));
    var twice := Del(once, ListenerStateKey(sessionId));
    SessionKeysAreNoRooms(sessionId, r);
    RoomKeysAreDistinct(roomId, r);
    RoomKeysAreDistinct(r, roomId);
    SetsAfterDel(keys, ListenerLastSeenKey(sessionId), RoomListenersKey(r));
    SetsAfterDel(keys, ListenerLastSeenKey(sessionId), RoomParticipantsKey(r));
    SetsAfterDel(once, ListenerStateKey(sessionId), RoomListenersKey(r));
    SetsAfterDel(once, ListenerStateKey(sessionId), RoomParticipantsKey(r));
    SetsAfterRem(twice, RoomListenersKey(roomId), sessionId, RoomListenersKey(r));
    SetsAfterRem(twice, RoomListenersKey(roomId), sessionId, RoomParticipantsKey(r));
  }

  lemma SetsAfterParticipantDeparts(keys: KeySpace, roomId: string, sessionId: string, r: string)
    ensures SMembers(ParticipantDeparts(keys, roomId, sessionId), RoomParticipantsKey(r))
         == SMembers(keys, RoomParticipantsKey(r)) - (if r == roomId then {sessionId} else {})
    ensures SMembers(ParticipantDeparts(keys, roomId, sessionId), RoomListenersKey(r)) == SMembers(keys, RoomListenersKey(r))
  {
    hide SRem, Del, SMembers, RoomListenersKey, RoomParticipantsKey, ParticipantStateKey;
    var once := Del(keys, ParticipantStateKey(sessionId));
    SessionKeysAreNoRooms(sessionId, r);
    RoomKeysAreDistinct(roomId, r);
    RoomKeysAreDistinct(r, roomId);
    SetsAfterDel(keys, ParticipantStateKey(sessionId), RoomListenersKey(r));
    SetsAfterDel(keys, ParticipantStateKey(sessionId), RoomParticipantsKey(r));
    SetsAfterRem(once, RoomParticipantsKey(roomId), sessionId, RoomListenersKey(r));
    SetsAfterRem(once, RoomParticipantsKey(roomId), sessionId, RoomParticipantsKey(r));
  }

  lemma RedisRefinesDepartures(keys: KeySpace, p: Presence, roomId: string, sessionId: string)
    requires Shows(keys, p)
    ensures Shows(ListenerDeparts(keys, roomId, sessionId), p.(listeners := Removed(p.listeners, roomId, sessionId)))
    ensures Shows(ParticipantDeparts(keys, roomId, sessionId), p.(participants := Removed(p.participants, roomId, sessionId)))
  {
    hide SMembers, ListenerDeparts, ParticipantDeparts, RoomListenersKey, RoomParticipantsKey;
    forall r
      ensures SMembers(ListenerDeparts(keys, roomId, sessionId), RoomListenersKey(r))
           == Members(Removed(p.listeners, roomId, sessionId), r)
      ensures SMembers(ListenerDeparts(keys, roomId, sessionId), RoomParticipantsKey(r)) == Members(p.participants, r)
      ensures SMembers(ParticipantDeparts(keys, roomId, sessionId), RoomParticipantsKey(r))
           == Members(Removed(p.participants, roomId, sessionId), r)
      ensures SMembers(ParticipantDeparts(keys, roomId, sessionId), RoomListenersKey(r)) == Members(p.listeners, r)
    {
      SetsAfterListenerDeparts(keys, roomId, sessionId, r);
      SetsAfterParticipantDeparts(keys, roomId, sessionId, r);
    }
  }

  /** internal/infra/redis/presence_store.go, its sets only; each pipeline is one atomic step. */
  class PresenceStore {
    var keys: KeySpace

    constructor ()
      ensures keys == map[] && Shows(keys, Presence(map[], map[]))
    {
      keys := map[];
    }

    method MarkListenerActive(roomId: string, sessionId: string)
      modifies this
      ensures keys == ListenerArrives(old(keys), roomId, sessionId)
    {
      keys := SAdd(keys, RoomListenersKey(roomId), sessionId);
    }

    method TouchListener(roomId: string, sessionId: string)
      modifies this
      ensures keys == ListenerArrives(old(keys), roomId, sessionId)
    {
      keys := SAdd(keys, RoomListenersKey(roomId), sessionId);
    }

    method MarkListenerInactive(roomId: string, sessionId: string)
      modifies this
      ensures keys == ListenerDeparts(old(keys), roomId, sessionId)
    {
      keys := Del(keys, ListenerLastSeenKey(sessionId));
      keys := Del(keys, ListenerStateKey(sessionId));
      keys := SRem(keys, RoomListenersKey(roomId), sessionId);
    }

    method ActiveListenerCount(roomId: string, ghost p: Presence) returns (count: nat)
      requires Shows(keys, p)
      ensures count == |Members(p.listeners, roomId)|
    {
      count := |SMembers(keys, RoomListenersKey(roomId))|;
    }

    method MarkParticipantActive(roomId: string, sessionId: string)
      modifies this
      ensures keys == ParticipantArrives(old(keys), roomId, sessionId)
    {
      keys := SAdd(keys, RoomParticipantsKey(roomId), sessionId);
    }

    method MarkParticipantInactive(roomId: string, sessionId: string)
      modifies this
      ensures keys == ParticipantDeparts(old(keys), roomId, sessionId)
    {
      keys := Del(keys, ParticipantStateKey(sessionId));
      keys := SRem(keys, RoomParticipantsKey(roomId), sessionId);
    }

    method ActiveParticipantCount(roomId: string, ghost p: Presence) returns (count: nat)
      requires Shows(keys, p)
      ensures count == |Members(p.participants, roomId)|
    {
      count := |SMembers(keys, RoomParticipantsKey(roomId))|;
    }
  }
}
