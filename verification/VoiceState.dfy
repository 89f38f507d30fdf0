/**
 The state behind the voice service as one value: the store's tables and event log, the optional presence sets,
 the LiveKit tokens issued so far and the background jobs asked for.
 */
module VoiceState {
  import opened Base
  import opened VoiceTypes

  /** Session ids by room, one map for listeners and one for LiveKit participants. */
  datatype Presence = Presence(listeners: map<string, set<string>>, participants: map<string, set<string>>)

  /** A LiveKit token, with the length of the event log when it was issued. */
  datatype Grant = Grant(roomId: string, userId: string, role: Role, logged: nat)

  datatype JobRequest = JobRequest(jobType: string, key: string, roomId: string, actorUserId: string)

  datatype State = State(
    rooms: map<string, Room>,
    sessions: map<string, ListenerSession>,
    participants: map<string, ParticipantSession>,
    requests: map<string, SpeakerRequest>,
    blocks: map<string, SpeakingBlock>,
    recordings: map<string, Recording>,
    reports: map<string, Report>,
    events: seq<Event>,
    presence: Option<Presence>,
    grants: seq<Grant>,
    outbox: seq<JobRequest>
  )

  datatype ServiceConfig = ServiceConfig(
    recordingEnabled: bool,
    recordingRetentionDays: int,
    s3Bucket: string,
    s3Region: string,
    s3RecordingsPrefix: string
  )

  // ----- The store's scans -----

  function ActiveIn(sessions: map<string, ListenerSession>, roomId: string): set<string> {
    set id | id in sessions && sessions[id].roomId == roomId && sessions[id].status == SessionActive
  }

  function ActiveOf(sessions: map<string, ListenerSession>, roomId: string, userId: string): set<string> {
    set id | id in sessions && sessions[id].roomId == roomId && sessions[id].userId == userId
             && sessions[id].status == SessionActive
  }

  function Stale(sessions: map<string, ListenerSession>, cutoff: Time): set<string> {
    set id | id in sessions && sessions[id].status == SessionActive && sessions[id].lastHeartbeatAt < cutoff
  }

  function ParticipantsIn(participants: map<string, ParticipantSession>, roomId: string): set<string> {
    set id | id in participants && participants[id].roomId == roomId && participants[id].status == ParticipantActive
  }

  function RequestsOf(requests: map<string, SpeakerRequest>, roomId: string, userId: string, status: RequestStatus)
    : set<string>
  {
    set id | id in requests && requests[id].roomId == roomId && requests[id].userId == userId
             && requests[id].status == status
  }

  function ActiveBlocks(blocks: map<string, SpeakingBlock>, roomId: string, userId: string): set<string> {
    set id | id in blocks && blocks[id].roomId == roomId && blocks[id].userId == userId && blocks[id].unblockedAt.None?
  }

  // ----- Presence -----

  function Members(rooms: map<string, set<string>>, roomId: string): set<string> {
    if roomId in rooms then rooms[roomId] else {}
  }

  function Added(rooms: map<string, set<string>>, roomId: string, id: string): map<string, set<string>> {
    rooms[roomId := Members(rooms, roomId) + {id}]
  }

  function Removed(rooms: map<string, set<string>>, roomId: string, id: string): map<string, set<string>> {
    if roomId in rooms then rooms[roomId := rooms[roomId] - {id}] else rooms
  }

  function ListenerPresent(p: Option<Presence>, roomId: string, id: string): Option<Presence> {
    match p
    case None => None
    case Some(v) => Some(v.(listeners := Added(v.listeners, roomId, id)))
  }

  function ListenerAbsent(p: Option<Presence>, roomId: string, id: string): Option<Presence> {
    match p
    case None => None
    case Some(v) => Some(v.(listeners := Removed(v.listeners, roomId, id)))
  }

  function ParticipantPresent(p: Option<Presence>, roomId: string, id: string): Option<Presence> {
    match p
    case None => None
    case Some(v) => Some(v.(participants := Added(v.participants, roomId, id)))
  }

  // ----- Reports -----

  /** Whole seconds between joining and leaving, or now; a session that ends before it starts counts nothing. */
  function SecondsListened(session: ListenerSession, now: Time): int {
    NanosListened(session, now) / SECOND
  }

  function NanosListened(session: ListenerSession, now: Time): (n: int)
    ensures n >= 0
  {
    var end := if session.leftAt.Some? then session.leftAt.value else now;
    if end > session.joinedAt then end - session.joinedAt else 0
  }

  function SessionsIn(sessions: map<string, ListenerSession>, roomId: string): set<string> {
    set id | id in sessions && sessions[id].roomId == roomId
  }

  ghost function TotalSeconds(sessions: map<string, ListenerSession>, ids: set<string>, now: Time): int
    requires ids <= sessions.Keys
  {
    if ids == {} then 0
    else
      var id :| id in ids;
      SecondsListened(sessions[id], now) + TotalSeconds(sessions, ids - {id}, now)
  }

  function SpeakersIn(participants: map<string, ParticipantSession>, roomId: string): set<string> {
    set id | id in participants && participants[id].roomId == roomId && RoleUsesLiveKit(participants[id].role)
      :: participants[id].userId
  }

  function UsersOf(sessions: map<string, ListenerSession>, ids: set<string>): set<string>
    requires ids <= sessions.Keys
  {
    set id | id in ids :: sessions[id].userId
  }

  /** The peak is the current number of active listeners; speaking time is always zero. */
  ghost function CountedStats(sessions: map<string, ListenerSession>, participants: map<string, ParticipantSession>,
                              roomId: string, now: Time): ReportStats {
    var ids := SessionsIn(sessions, roomId);
    ReportStats(|UsersOf(sessions, ids)|, |SpeakersIn(participants, roomId)|, |ids|,
                |ActiveIn(sessions, roomId)|, TotalSeconds(sessions, ids, now), 0)
  }

  ghost function StatsOf(s: State, roomId: string, now: Time): ReportStats {
    CountedStats(s.sessions, s.participants, roomId, now)
  }

  // ----- Writes -----

  /** What one command writes, in one piece. */
  datatype Change =
    | Nothing
    | PutRoom(room: Room, event: Event, jobs: seq<JobRequest>)
    | PutRecording(recording: Recording, recordedRoom: Room, event: Event)
    | PutSpeaker(participant: ParticipantSession)
    | PutListener(session: ListenerSession, event: Event)
    | EndListeners(ended: seq<ListenerSession>, told: seq<Event>)
    | PutRequest(request: SpeakerRequest, event: Event)
    | PutBlock(block: SpeakingBlock, event: Event)
    | PutReport(report: Report, event: Event)
    | Tell(event: Event)

  /** Saves a session that is no longer active and takes it out of the presence set. */
  function EndSession(s: State, session: ListenerSession): State {
    s.(sessions := s.sessions[session.id := session],
       presence := ListenerAbsent(s.presence, session.roomId, session.id))
  }

  /** Ends several sessions, first to last. */
  function EndSessions(s: State, ended: seq<ListenerSession>): State {
    if ended == [] then s
    else EndSession(EndSessions(s, ended[..|ended| - 1]), ended[|ended| - 1])
  }

  function Write(s: State, change: Change): State {
    match change
    case Nothing => s
    case PutRoom(room, event, jobs) =>
      s.(rooms := s.rooms[room.id := room], events := s.events + [event], outbox := s.outbox + jobs)
    case PutRecording(recording, room, event) =>
      s.(recordings := s.recordings[recording.id := recording], rooms := s.rooms[room.id := room],
         events := s.events + [event])
    case PutSpeaker(p) =>
      s.(participants := s.participants[p.id := p],
         presence := ParticipantPresent(s.presence, p.roomId, p.id),
         grants := s.grants + [Grant(p.roomId, p.userId, p.role, |s.events|)])
    case PutListener(session, event) =>
      s.(sessions := s.sessions[session.id := session],
         presence := ListenerPresent(s.presence, session.roomId, session.id),
         events := s.events + [event])
    case EndListeners(ended, told) =>
      var after := EndSessions(s, ended);
      after.(events := after.events + told)
    case PutRequest(request, event) =>
      s.(requests := s.requests[request.id := request], events := s.events + [event])
    case PutBlock(block, event) =>
      s.(blocks := s.blocks[block.id := block], events := s.events + [event])
    case PutReport(report, event) =>
      s.(reports := s.reports[report.roomId := report], events := s.events + [event])
    case Tell(event) => s.(events := s.events + [event])
  }
}
