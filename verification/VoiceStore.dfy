/** The in-memory voice store (internal/infra/memory/store.go): tables, an event log, and scans in map order. */
module VoiceStore {
  import opened Base
  import opened VoiceTypes
  import opened VoiceState
  import ReportLaws
  import Do = VoiceCommands

  function Ids(list: seq<ListenerSession>): (ids: seq<string>)
    ensures |ids| == |list| && forall i :: 0 <= i < |list| ==> ids[i] == list[i].id
  {
    seq(|list|, i requires 0 <= i < |list| => list[i].id)
  }

  /** Copies of stored sessions, no two of them alike. */
  predicate Copies(list: seq<ListenerSession>, sessions: map<string, ListenerSession>) {
    && (forall i :: 0 <= i < |list| ==> list[i].id in sessions && list[i] == sessions[list[i].id])
    && (forall i, j :: 0 <= i < j < |list| ==> list[i].id != list[j].id)
  }

  lemma OneCopyMore(list: seq<ListenerSession>, sessions: map<string, ListenerSession>, id: string)
    requires Copies(list, sessions) && id in sessions && sessions[id].id == id
    requires forall i :: 0 <= i < |list| ==> list[i].id != id
    ensures Copies(list + [sessions[id]], sessions)
    ensures Ids(list + [sessions[id]]) == Ids(list) + [id]
  {
  }

  lemma NoCopies(sessions: map<string, ListenerSession>)
    ensures Copies([], sessions)
  {
  }

  lemma StaleListed(list: seq<ListenerSession>, sessions: map<string, ListenerSession>, cutoff: Time, limit: nat)
    requires Copies(list, sessions) && forall i :: 0 <= i < |list| ==> list[i].id in Stale(sessions, cutoff)
    requires |list| == Min(limit, |Stale(sessions, cutoff)|)
    ensures Do.ListsStale(Ids(list), Stale(sessions, cutoff), limit)
  {
  }

  lemma StaleMember(sessions: map<string, ListenerSession>, cutoff: Time, id: string)
    requires id in sessions
    ensures id in Stale(sessions, cutoff)
       <==> sessions[id].status == SessionActive && sessions[id].lastHeartbeatAt < cutoff
  {
  }

  lemma NoneSeen(sessions: map<string, ListenerSession>, cutoff: Time)
    ensures Stale(sessions, cutoff) - sessions.Keys == {}
  {
  }

  class Store {
    var rooms: map<string, Room>
    var sessions: map<string, ListenerSession>
    var participants: map<string, ParticipantSession>
    var requests: map<string, SpeakerRequest>
    var blocks: map<string, SpeakingBlock>
    var recordings: map<string, Recording>
    var reports: map<string, Report>
    var events: seq<Event>

    constructor ()
      ensures rooms == map[] && sessions == map[] && participants == map[] && requests == map[]
      ensures blocks == map[] && recordings == map[] && reports == map[] && events == []
    {
      rooms, sessions, participants, requests := map[], map[], map[], map[];
      blocks, recordings, reports, events := map[], map[], map[], [];
    }

    predicate SessionsFiled()
      reads this
    {
      forall id :: id in sessions ==> sessions[id].id == id
    }

    method SaveRoom(room: Room)
      modifies `rooms
      ensures rooms == old(rooms)[room.id := room]
    {
      rooms := rooms[room.id := room];
    }

    method GetRoom(roomId: string) returns (r: Result<Room, Error>)
      ensures r == if roomId in rooms then Ok(rooms[roomId]) else Err(RoomNotFound)
    {
      r := if roomId in rooms then Ok(rooms[roomId]) else Err(RoomNotFound);
    }

    method SaveListenerSession(session: ListenerSession)
      modifies `sessions
      ensures sessions == old(sessions)[session.id := session]
    {
      sessions := sessions[session.id := session];
    }

    method GetListenerSession(sessionId: string) returns (r: Result<ListenerSession, Error>)
      ensures r == if sessionId in sessions then Ok(sessions[sessionId]) else Err(ListenerSessionNotFound)
    {
      r := if sessionId in sessions then Ok(sessions[sessionId]) else Err(ListenerSessionNotFound);
    }

    /** Copies of a room's active sessions, in whatever order the map is walked. */
    method ListActiveListenerSessions(roomId: string) returns (out: seq<ListenerSession>)
      requires SessionsFiled()
      ensures Copies(out, sessions) && Do.Lists(Ids(out), ActiveIn(sessions, roomId))
    {
      out := [];
      var unseen := sessions.Keys;
      while unseen != {}
        invariant unseen <= sessions.Keys && Copies(out, sessions)
        invariant forall i :: 0 <= i < |out| ==> out[i].id in ActiveIn(sessions, roomId) && out[i].id !in unseen
        invariant forall id :: id in ActiveIn(sessions, roomId) && id !in unseen ==> id in Ids(out)
        decreases |unseen|
      {
        var id :| id in unseen;
        unseen := unseen - {id};
        var session := sessions[id];
        if session.roomId == roomId && session.status == SessionActive {
          OneCopyMore(out, sessions, id);
          out := out + [session];
        }
      }
    }

    method ListActiveListenerSessionsByUser(roomId: string, userId: string) returns (out: seq<ListenerSession>)
      requires SessionsFiled()
      ensures Copies(out, sessions) && Do.Lists(Ids(out), ActiveOf(sessions, roomId, userId))
    {
      out := [];
      var unseen := sessions.Keys;
      while unseen != {}
        invariant unseen <= sessions.Keys && Copies(out, sessions)
        invariant forall i :: 0 <= i < |out| ==> out[i].id in ActiveOf(sessions, roomId, userId) && out[i].id !in unseen
        invariant forall id :: id in ActiveOf(sessions, roomId, userId) && id !in unseen ==> id in Ids(out)
        decreases |unseen|
      {
        var id :| id in unseen;
        unseen := unseen - {id};
        var session := sessions[id];
        if session.roomId == roomId && session.userId == userId && session.status == SessionActive {
          OneCopyMore(out, sessions, id);
          out := out + [session];
        }
      }
    }

    /**
     Up to `limit` stale sessions; which ones, when there are more, depends on the order of the walk. A limit of
     zero or below is none.
     */
    method ListStaleListenerSessions(cutoff: Time, limit: int) returns (out: seq<ListenerSession>)
      requires SessionsFiled()
      ensures Copies(out, sessions)
      ensures Do.ListsStale(Ids(out), Stale(sessions, cutoff), if limit > 0 then limit else |Stale(sessions, cutoff)|)
    {
      hide Copies, Stale, Ids, Do.ListsStale;
      out := [];
      var unseen := sessions.Keys;
      NoCopies(sessions);
      NoneSeen(sessions, cutoff);
      while unseen != {}
        invariant unseen <= sessions.Keys && Copies(out, sessions)
        invariant limit > 0 ==> |out| < limit
        invariant |out| == |Stale(sessions, cutoff) - unseen|
        invariant forall i :: 0 <= i < |out| ==> out[i].id in Stale(sessions, cutoff) && out[i].id !in unseen
        decreases |unseen|
      {
        var id :| id in unseen;
        SeenGrows(Stale(sessions, cutoff), unseen, id);
        StaleMember(sessions, cutoff, id);
        unseen := unseen - {id};
        var session := sessions[id];
        if session.status == SessionActive && session.lastHeartbeatAt < cutoff {
          OneCopyMore(out, sessions, id);
          out := out + [session];
          if limit > 0 && |out| >= limit {
            SeenAtMost(Stale(sessions, cutoff), unseen);
            StaleListed(out, sessions, cutoff, limit);
            return;
          }
        }
      }
      AllSeen(Stale(sessions, cutoff));
      StaleListed(out, sessions, cutoff, if limit > 0 then limit else |Stale(sessions, cutoff)|);
    }

    method CountActiveListeners(roomId: string) returns (count: nat)
      ensures count == |ActiveIn(sessions, roomId)|
    {
      count := 0;
      var unseen := sessions.Keys;
      while unseen != {}
        invariant unseen <= sessions.Keys && count == |ActiveIn(sessions, roomId) - unseen|
        decreases |unseen|
      {
        var id :| id in unseen;
        SeenGrows(ActiveIn(sessions, roomId), unseen, id);
        unseen := unseen - {id};
        if sessions[id].roomId == roomId && sessions[id].status == SessionActive {
          count := count + 1;
        }
      }
      AllSeen(ActiveIn(sessions, roomId));
    }

    method SaveParticipantSession(p: ParticipantSession)
      modifies `participants
      ensures participants == old(participants)[p.id := p]
    {
      participants := participants[p.id := p];
    }

    method CountActiveParticipantSessions(roomId: string) returns (count: nat)
      ensures count == |ParticipantsIn(participants, roomId)|
    {
      count := 0;
      var unseen := participants.Keys;
      while unseen != {}
        invariant unseen <= participants.Keys && count == |ParticipantsIn(participants, roomId) - unseen|
        decreases |unseen|
      {
        var id :| id in unseen;
        SeenGrows(ParticipantsIn(participants, roomId), unseen, id);
        unseen := unseen - {id};
        if participants[id].roomId == roomId && participants[id].status == ParticipantActive {
          count := count + 1;
        }
      }
      AllSeen(ParticipantsIn(participants, roomId));
    }

    method SaveSpeakerRequest(request: SpeakerRequest)
      modifies `requests
      ensures requests == old(requests)[request.id := request]
    {
      requests := requests[request.id := request];
    }

    method GetSpeakerRequest(requestId: string) returns (r: Result<SpeakerRequest, Error>)
      ensures r == if requestId in requests then Ok(requests[requestId]) else Err(SpeakerRequestNotFound)
    {
      r := if requestId in requests then Ok(requests[requestId]) else Err(SpeakerRequestNotFound);
    }

    /** Some request of the user with the status, if there is one. */
    method FindSpeakerRequest(roomId: string, userId: string, status: RequestStatus) returns (r: Result<SpeakerRequest, Error>)
      ensures r.Ok? <==> RequestsOf(requests, roomId, userId, status) != {}
      ensures r.Ok? ==> exists id :: id in RequestsOf(requests, roomId, userId, status) && r.value == requests[id]
      ensures r.Err? ==> r.error == SpeakerRequestNotFound
    {
      var unseen := requests.Keys;
      while unseen != {}
        invariant unseen <= requests.Keys
        invariant RequestsOf(requests, roomId, userId, status) <= unseen
        decreases |unseen|
      {
        var id :| id in unseen;
        var request := requests[id];
        if request.roomId == roomId && request.userId == userId && request.status == status {
          assert id in RequestsOf(requests, roomId, userId, status);
          return Ok(request);
        }
        unseen := unseen - {id};
      }
      return Err(SpeakerRequestNotFound);
    }

    method SaveSpeakingBlock(block: SpeakingBlock)
      modifies `blocks
      ensures blocks == old(blocks)[block.id := block]
    {
      blocks := blocks[block.id := block];
    }

    method GetActiveSpeakingBlock(roomId: string, userId: string) returns (r: Result<SpeakingBlock, Error>)
      ensures r.Ok? <==> ActiveBlocks(blocks, roomId, userId) != {}
      ensures r.Ok? ==> exists id :: id in ActiveBlocks(blocks, roomId, userId) && r.value == blocks[id]
      ensures r.Err? ==> r.error == SpeakingBlockNotFound
    {
      var unseen := blocks.Keys;
      while unseen != {}
        invariant unseen <= blocks.Keys
        invariant ActiveBlocks(blocks, roomId, userId) <= unseen
        decreases |unseen|
      {
        var id :| id in unseen;
        var block := blocks[id];
        if block.roomId == roomId && block.userId == userId && block.unblockedAt.None? {
          assert id in ActiveBlocks(blocks, roomId, userId);
          return Ok(block);
        }
        unseen := unseen - {id};
      }
      return Err(SpeakingBlockNotFound);
    }

    method SaveRecording(recording: Recording)
      modifies `recordings
      ensures recordings == old(recordings)[recording.id := recording]
    {
      recordings := recordings[recording.id := recording];
    }

    method GetRecording(recordingId: string) returns (r: Result<Recording, Error>)
      ensures r == if recordingId in recordings then Ok(recordings[recordingId]) else Err(RecordingNotFound)
    {
      r := if recordingId in recordings then Ok(recordings[recordingId]) else Err(RecordingNotFound);
    }

    method SaveReport(report: Report)
      modifies `reports
      ensures reports == old(reports)[report.roomId := report]
    {
      reports := reports[report.roomId := report];
    }

    /** The walk over the sessions: joins, users, active listeners and whole seconds listened. */
    method ScanSessions(roomId: string, now: Time)
      returns (totalJoinEvents: nat, listeners: set<string>, activeListeners: nat, totalListening: int)
      ensures var ids := SessionsIn(sessions, roomId);
              && totalJoinEvents == |ids| && listeners == UsersOf(sessions, ids)
              && activeListeners == |ActiveIn(sessions, roomId)| && totalListening == TotalSeconds(sessions, ids, now)
    {
      hide SessionsIn, ActiveIn, UsersOf, TotalSeconds;
      RoomMembers(sessions, roomId);
      totalJoinEvents, listeners, activeListeners, totalListening := 0, {}, 0, 0;
      NothingSeen(sessions, SessionsIn(sessions, roomId), now);
      NothingSeen(sessions, ActiveIn(sessions, roomId), now);
      var unseen := sessions.Keys;
      while unseen != {}
        invariant unseen <= sessions.Keys
        invariant totalJoinEvents == |SessionsIn(sessions, roomId) - unseen|
        invariant listeners == UsersOf(sessions, SessionsIn(sessions, roomId) - unseen)
        invariant totalListening == TotalSeconds(sessions, SessionsIn(sessions, roomId) - unseen, now)
        invariant activeListeners == |ActiveIn(sessions, roomId) - unseen|
        decreases |unseen|
      {
        var id :| id in unseen;
        SeenGrows(SessionsIn(sessions, roomId), unseen, id);
        SeenGrows(ActiveIn(sessions, roomId), unseen, id);
        ghost var seen := SessionsIn(sessions, roomId) - unseen;
        unseen := unseen - {id};
        var session := sessions[id];
        if session.roomId != roomId {
          continue;
        }
        totalJoinEvents := totalJoinEvents + 1;
        listeners := listeners + {session.userId};
        var end := now;
        if session.leftAt.Some? {
          end := session.leftAt.value;
        }
        if end > session.joinedAt {
          totalListening := totalListening + (end - session.joinedAt) / SECOND;
        }
        OneSessionMore(sessions, seen, id, now);
        if session.status == SessionActive {
          activeListeners := activeListeners + 1;
        }
      }
      AllSeen(SessionsIn(sessions, roomId));
      AllSeen(ActiveIn(sessions, roomId));
    }

    method ScanParticipants(roomId: string) returns (speakers: set<string>)
      ensures speakers == SpeakersIn(participants, roomId)
    {
      speakers := {};
      var unseen := participants.Keys;
      while unseen != {}
        invariant unseen <= participants.Keys
        invariant speakers == set id | id in participants && id !in unseen && participants[id].roomId == roomId
                                       && RoleUsesLiveKit(participants[id].role) :: participants[id].userId
        decreases |unseen|
      {
        var id :| id in unseen;
        unseen := unseen - {id};
        if participants[id].roomId == roomId && RoleUsesLiveKit(participants[id].role) {
          speakers := speakers + {participants[id].userId};
        }
      }
    }

    method ReportStatsOf(roomId: string, now: Time) returns (stats: ReportStats)
      ensures stats == CountedStats(sessions, participants, roomId, now)
    {
      var totalJoinEvents, listeners, activeListeners, totalListening := ScanSessions(roomId, now);
      var speakers := ScanParticipants(roomId);
      stats := ReportStats(|listeners|, |speakers|, totalJoinEvents, activeListeners, totalListening, 0);
    }

    method AppendEvent(event: Event)
      modifies `events
      ensures events == old(events) + [event]
    {
      events := events + [event];
    }
  }

  // ----- Walks over a key set -----

  /** Taking one key off the unseen ones adds it to the seen members of `wanted`, if it is one. */
  lemma SeenGrows(wanted: set<string>, unseen: set<string>, id: string)
    requires id in unseen
    ensures id in wanted ==> wanted - (unseen - {id}) == (wanted - unseen) + {id}
    ensures id in wanted ==> |wanted - (unseen - {id})| == |wanted - unseen| + 1
    ensures id !in wanted ==> wanted - (unseen - {id}) == wanted - unseen
  {
  }

  lemma SeenAtMost(wanted: set<string>, unseen: set<string>)
    ensures |wanted - unseen| <= |wanted|
  {
  }

  lemma RoomMembers(sessions: map<string, ListenerSession>, roomId: string)
    ensures SessionsIn(sessions, roomId) <= sessions.Keys && ActiveIn(sessions, roomId) <= sessions.Keys
    ensures forall id :: id in sessions ==>
              && (id in SessionsIn(sessions, roomId) <==> sessions[id].roomId == roomId)
              && (id in ActiveIn(sessions, roomId) <==>
                    sessions[id].roomId == roomId && sessions[id].status == SessionActive)
  {
  }

  lemma NothingSeen(sessions: map<string, ListenerSession>, wanted: set<string>, now: Time)
    requires wanted <= sessions.Keys
    ensures wanted - sessions.Keys == {}
    ensures UsersOf(sessions, {}) == {} && TotalSeconds(sessions, {}, now) == 0
  {
  }

  lemma AllSeen(wanted: set<string>)
    ensures wanted - {} == wanted
  {
  }

  lemma OneSessionMore(sessions: map<string, ListenerSession>, seen: set<string>, id: string, now: Time)
    requires seen <= sessions.Keys && id in sessions && id !in seen
    ensures UsersOf(sessions, seen + {id}) == UsersOf(sessions, seen) + {sessions[id].userId}
    ensures TotalSeconds(sessions, seen + {id}, now)
         == TotalSeconds(sessions, seen, now) + SecondsListened(sessions[id], now)
  {
    ReportLaws.TotalPicks(sessions, seen + {id}, now, id);
    assert seen + {id} - {id} == seen;
  }
}
