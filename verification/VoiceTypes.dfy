/** The entities of a voice room (internal/domain/voice/types.go). Unset instants are None, unset ids are "". */
module VoiceTypes {
  import opened Base

  datatype RoomStatus = Draft | Scheduled | Live | Ending | Finished | RoomCancelled

  datatype Role = Owner | Admin | Moderator | Speaker | Listener

  datatype Room = Room(
    id: string,
    title: string,
    status: RoomStatus,
    ownerId: string,
    adminIds: seq<string>,
    moderatorIds: seq<string>,
    liveKitRoomName: string,
    listenerStreamId: string,
    passiveMode: string,
    recordingEnabled: bool,
    activeRecordingId: string,
    startedAt: Option<Time>,
    endedAt: Option<Time>,
    endedBy: string,
    endReason: string,
    createdAt: Time,
    updatedAt: Time
  )

  /** The first list that names the user decides; nobody is the empty user. */
  function ResolveRole(room: Room, userId: string): Role {
    if userId == "" then Listener
    else if room.ownerId == userId then Owner
    else if userId in room.adminIds then Admin
    else if userId in room.moderatorIds then Moderator
    else Listener
  }

  predicate RoleCanModerate(role: Role) {
    role == Owner || role == Admin || role == Moderator
  }

  predicate RoleUsesLiveKit(role: Role) {
    role == Owner || role == Admin || role == Moderator || role == Speaker
  }

  datatype SessionStatus = SessionActive | SessionLeft | SessionExpired | SessionRemoved

  datatype ListenerSession = ListenerSession(
    id: string,
    roomId: string,
    userId: string,
    status: SessionStatus,
    playbackUrlKind: string,
    joinedAt: Time,
    leftAt: Option<Time>,
    lastHeartbeatAt: Time,
    leaveType: string,
    removedBy: string,
    removeReason: string,
    createdAt: Time,
    updatedAt: Time
  )

  datatype ParticipantStatus = ParticipantActive | ParticipantLeft | ParticipantRemoved

  datatype ParticipantSession = ParticipantSession(
    id: string,
    roomId: string,
    userId: string,
    role: Role,
    liveKitIdentity: string,
    status: ParticipantStatus,
    joinedAt: Time
  )

  datatype RequestStatus = RequestPending | RequestApproved | RequestDeclined | RequestCancelled | RequestRevoked

  datatype SpeakerRequest = SpeakerRequest(
    id: string,
    roomId: string,
    userId: string,
    status: RequestStatus,
    requestedAt: Time,
    decidedAt: Option<Time>,
    decidedBy: string,
    decisionReason: string
  )

  datatype SpeakingBlock = SpeakingBlock(
    id: string,
    roomId: string,
    userId: string,
    blockedBy: string,
    reason: string,
    blockedAt: Time,
    unblockedBy: string,
    unblockedAt: Option<Time>
  )

  datatype RecordingStatus =
    | RecordingRequested | RecordingStarted | RecordingStopping | RecordingCompleted
    | RecordingFailed | RecordingExpired | RecordingDeleted

  datatype StorageObject = StorageObject(provider: string, bucket: string, region: string, key: string, mimeType: string)

  datatype Recording = Recording(
    id: string,
    roomId: string,
    status: RecordingStatus,
    storage: StorageObject,
    durationSeconds: int,
    startedAt: Time,
    endedAt: Option<Time>,
    expiresAt: Option<Time>,
    createdAt: Time,
    updatedAt: Time
  )

  datatype ReportStats = ReportStats(
    uniqueListeners: nat,
    uniqueSpeakers: nat,
    totalJoinEvents: nat,
    peakConcurrentListeners: nat,
    totalListeningSeconds: int,
    totalSpeakingSeconds: int
  )

  datatype Report = Report(id: string, roomId: string, summary: ReportStats, generatedAt: Time)

  datatype EventType =
    | RoomCreated | RoomStarted | RoomFinished
    | SessionStarted | HeartbeatReceived | SessionLeftEvent | SessionExpiredEvent
    | SpeakerRequested | SpeakerApproved | SpeakerDeclined | SpeakerRevoked
    | SpeakerBlocked | SpeakerUnblocked | UserRemoved
    | RecordingStartedEvent | RecordingCompletedEvent | ReportCompleted

  /** What an event carries: the record that was saved, or the target and reason of a moderation. */
  datatype Payload =
    | OfRoom(room: Room)
    | OfSession(session: ListenerSession)
    | OfRequest(request: SpeakerRequest)
    | OfBlock(block: SpeakingBlock)
    | OfRecording(recording: Recording)
    | OfReport(report: Report)
    | OfTarget(userId: string, reason: string)

  datatype Event = Event(
    eventType: EventType,
    roomId: string,
    actorUserId: string,
    targetUserId: string,
    occurredAt: Time,
    payload: Payload
  )

  datatype Error =
    | InvalidArgument | RoomNotFound | RoomNotLive | InvalidRoomState | PermissionDenied
    | SpeakerIsBlocked | SpeakingBlockNotFound | SpeakerRequestNotFound | ListenerSessionNotFound
    | RecordingNotFound | RecordingDisabled | ReportNotFound | Conflict

  datatype MediaPath = LiveKitPath | LLHLSPath

  datatype Permissions = Permissions(canSpeak: bool, canModerate: bool, canRecord: bool, canReport: bool)

  /** The room and identity a LiveKit token is good for. */
  datatype SpeakerDescriptor = SpeakerDescriptor(roomName: string, identity: string)

  datatype JoinResult = JoinResult(
    roomId: string,
    role: Role,
    mediaPath: MediaPath,
    permissions: Permissions,
    listenerSessionId: Option<string>,
    speaker: Option<SpeakerDescriptor>,
    channels: seq<string>
  )
}
