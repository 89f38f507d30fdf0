# WaveCast: rooms, presence and background jobs

WaveCast runs live voice rooms. Speakers talk over LiveKit, listeners hear an HLS stream, and a Go service keeps
rooms, sessions, speaker requests, speaking blocks, recordings and reports. Finishing a room leaves slow work to a
durable job queue whose workers hold jobs under time-limited leases. This project models those parts in Dafny and
proves what they guarantee.

## How it is laid out

- **Queue.** `AsyncTypes`, `Backoff`, `MemoryStore`, `MongoStore` and `Runner` hold jobs, the retry delay, the two job
  stores and the worker. `JobProtocol` is the state machine of any number of workers, each with a private copy (a
  ticket) of the job it claimed, over a clock that only moves forward. `Accounting`, `Lease`, `AttemptBound`,
  `LeaseSharing`, `JobRecords`, `MemoryQueue`, `MongoQueue`, `NoStarvation`, `WorstRuns` and `BackoffRuns` prove its
  laws over whole runs.
- **Service.** `VoiceTypes` and `VoiceState` hold the entities and the state; `VoiceCommands` says what each command
  decides to write and answer; `VoiceStore`, `PresenceStores` and `VoiceService` are the mutable store, the two presence
  stores and the service, each method proved to do exactly what was decided. `Answers` and `Reference` are an
  independent table of the same commands: the checks each one makes, in order, and the records and events it leaves;
  the two are proved equal, presence sets aside. `VoiceRuns` and `VoiceLaws` reduce commands to a few legal kinds of
  change, and `RoomLaws`,
  `VoiceEffects`, `PresenceLaws`, `RedisRuns`, `EventReplay`, `SessionReplay`, `RecordingLaws`, `SpeakerTokens`,
  `JoinLaws`, `Channels`, `ExpiryLaws`, `ReportLaws` and `ReportHistory` prove the guarantees.
- **Both.** `Registry` holds the job handlers. `EndToEnd` composes the service with the memory queue, `WorldLaws` and
  `WorldExpiry` prove what that guarantees; `MongoWorld` composes it with the MongoDB queue and carries every guarantee
  over. There `SharedQueue` adds how soon a delivered job is claimed, `ProcessPresence` what presence counts without
  Redis, and `PeakLaws`, with the run in `LostPeak`, what reports say of the peak of listeners.
- **Client.** `Timer`, over `Text`, holds the room timer's printer and parser.

The stores' saves and getters, the members of the two presence stores and the completion updates of the job stores are
one update each, stated in full in their contracts and not listed below.

`dafny verify dfyconfig.toml` verifies everything.

## Assumptions

- A command of the service is one atomic step at one instant, and its infrastructure calls succeed. The Go code reads
  and then saves without one lock around both, and stamps an event a moment after the record it reports. The model
  keeps the two instants apart for the removal of a participant, the one event whose stamp stands in for something it
  does not carry. Enqueueing after `FinishRoom` is best effort in the code, so in the composed system a request may
  reach the queue late, out of order, or never.
- An enqueue and a poll read the clock and reach the store in one step. The code reads it a little earlier
  (`internal/core/async/types.go:92-105`, `internal/core/async/runner.go:62-63`). That new jobs line up behind those
  already due rests on this.
- Generated ids are new and contain no colon (`internal/platform/ids/ids.go:19-21`). The clock never goes back.
  The listener timeout, where listener expiry drains, is not negative.
- *Timely reports* (a worker reports before its lease ends, or never) is an explicit hypothesis, `Timely`, of the laws
  that need it: `Complete`, `Retry` and `DeadLetter` do not check who holds the lease. Everything else, the
  end-to-end guarantees included, holds for every interleaving, late reports included.
- `ClaimNext` of the memory store takes whichever ready job map iteration meets first; any choice is allowed.

## Where the code differs from what one might expect

- `attempts <= MaxAttempts` is false once leases expire; `BoundExceededIff` and its companions say exactly when, and the
  true bound, which adds the takeovers, is met (`AttemptBoundIsTight`).
- A late report can take a job out of Completed or DeadLetter, unseat a worker inside its lease, let another one into a
  lease beside it, and leave two live jobs under one key (`LateReportRevivesCompletedJob`, `LateReportSharesLease`,
  `LateReportLeavesTwoLiveJobs`); `FinalLeftIff`, `LeasesKeptIff`, `ExclusionEndsIff` and `IdempotentKeptIff` say
  exactly when.
- The backoff shift wraps in int64 for bases above (2^63 - 1) / 1024 ns, and a retry may then run at once or in front of
  jobs already due (`OverflowCollapsesDelay`); the queue starves no one exactly when no delay before the last attempt
  does that (`NobodyStarvesIff`).
- MongoDB ignores a key enqueued again after its job was dead-lettered; the memory store accepts it (`StoresAgreeIff`).
- Closing a room ends its sessions without an event, and the event of a removal carries neither the session nor its
  leaving time. So the log yields a session's record exactly when the last command that wrote it was neither a close nor
  a removal stamped apart from its event (`SessionToldIff`); after a removal only the times are off
  (`RemovalToldButTimes`).
- On the memory driver the API and the worker process each build their own job store (`cmd/api/main.go:134`,
  `cmd/worker/main.go:102`), so a job asked for through the API is never claimed there. The queue they share is the
  MongoDB one, and the guarantees that matter in operation are those of `MongoWorld`.
- Presence is one store for both processes only with Redis. Without it, which is the default, each keeps its own sets
  (`cmd/api/main.go:141`, `cmd/worker/main.go:108`), and the API goes on counting the listeners that the worker ended
  (`ApiCountsIff`, `ClosedRoomStillCounted`). The laws that speak of one presence store are about Redis or a single
  process.
- A join lists channels even for a blank user id, whose subscription requests are refused (`JoinChannelsSubscribeIff`).
- Revoking a speaker only publishes, and a block does not end a granted role (`RoleOnlyRises`). Leaving has no guard on
  the session's status (`LeavingOverwrites`). Stopping an older recording clears the active one
  and leaves it started (`RecordingIsLost`, `ActiveRecordingIff`). The reported peak of listeners is the current
  active count (`ReportedPeakIff`). A finished room is closed before it is reported on, so its report usually says that
  nobody ever listened (`ClosedRoomReportsNoPeak`, `ReportForgetsListeners`).
- `docs/events.md:7-22` lists the event names without `voice.listener.session.expired`, `voice.speaker.blocked` and
  `voice.speaker.unblocked`, which the code publishes; the model follows the code.

## Model

| member | source | states |
|---|---|---|
| MongoWorld.RoomClosedForGood | internal/app/voiceapp/service.go:121-155 | The service over the MongoDB queue that the API and worker processes share: once a job under a room's close key has been reported complete, the room is finished and has no active listener, in that and every later state, with late reports, crashes, lost enqueues and repeated handlers allowed; it counts none in the store, or in a presence store that both processes share |
| ProcessPresence.ApiCountsIff | internal/app/voiceapp/service.go:161-192 | Where each process keeps presence sets of its own: the API's listeners of a room are its active sessions and those the worker wrote last, so its count is right exactly when there are none of the latter; speakers always agree |
| ProcessPresence.ClosedRoomStillCounted | internal/app/voiceapp/service.go:728-748 | There, after the close job, the API still counts exactly the listeners that the worker ended |
| SharedQueue.DeliveredJobIsClaimed | internal/infra/mongo/async_job_store.go:40-74 | In a timely run of the composed system a delivered job is claimed within 1 + (waiting jobs not later than it) + (expired leases taken over meanwhile) claims, if every retry waits and nothing else is enqueued at the instant of delivery |
| SharedQueue.SharedQueueIsMongoRun | internal/infra/mongo/async_job_store.go:32-111 | The queue half of a run of the composed system is a run of the MongoDB queue |
| SharedQueue.DeliveryFilesJob | internal/infra/mongo/async_job_store.go:32-38 | A delivered request is never refused as a duplicate: it is filed as a new job, pending and due at once |
| PeakLaws.ClosedRoomReportsNoPeak | internal/infra/memory/store.go:301 | Once the close job has been reported complete, every later report of the room gives a peak of zero |
| LostPeak.ReportForgetsListeners | internal/app/voiceapp/service.go:146-153 | A run in which a listener joined, both jobs are worked off in the order asked for, and the report gives a peak of zero |
| MongoWorld.RoomReportedForGood | internal/worker/asyncjobs/registry.go:57-76 | There, once a job under the report key has been reported complete, the room has a report ever after |
| MongoWorld.ReportHandlerPermitted | internal/worker/asyncjobs/registry.go:57-76 | There, whenever the handler of a report job runs, the permission check passes; the job always names an actor, so the owner fallback is never needed |
| MongoWorld.FinishedRoomHasItsJobs | internal/app/voiceapp/service.go:146-153 | There, every finished room has asked for both its jobs, each request that reached the queue has a document under its key, and no key has two |
| MongoWorld.AttemptsOfSharedQueue | internal/infra/mongo/async_job_store.go:40-74 | There, attempts equal claims and exceed the maximum by the expired leases taken over at most |
| MongoWorld.ExpiredListenersWereSilent | internal/worker/asyncjobs/registry.go:78-86 | There, in every reachable state, each expired session had sent no heartbeat for longer than the listener timeout when it was ended |
| MongoWorld.OverdueListenersCleared | internal/worker/asyncjobs/registry.go:78-86 | There, whoever is overdue at one step is so no more at a later one, on the clock of the first, once the expiry handlers in between had room, at 250 each, for them and for all who became overdue since; cutoffs move with the clock and any commands interleave |
| MongoWorld.SharedRunIsWorldRun | internal/infra/mongo/async_job_store.go:32-111 | Every run over the MongoDB queue is state for state a run over the memory queue; only scheduled jobs under a dead key are left out |
| MongoWorld.AlwaysAskedOnce | internal/app/voiceapp/service.go:121-155 | A room finishes once: no key is asked for twice, and a key is filed only by the scheduler or by delivering its request |
| WorldLaws.ClosedRoomStaysEmpty | internal/app/voiceapp/service.go:121-155 | The room close guarantee for one process over the memory queue |
| WorldLaws.ClosedRoomCountsNobody | internal/app/voiceapp/service.go:161-192 | In those states the listener count is zero whether it is read from presence or from the store |
| WorldLaws.ReportedRoomHasReport | internal/worker/asyncjobs/registry.go:57-76 | The report guarantee for one process over the memory queue |
| WorldLaws.ReportJobAlwaysPermitted | internal/worker/asyncjobs/registry.go:57-76 | The permission guarantee for one process over the memory queue |
| WorldLaws.FinishedRoomAsksForItsJobs | internal/app/voiceapp/service.go:146-153 | Every finished room has asked for both its jobs, and each request that reached the queue has a job filed under its key |
| EndToEnd.AlwaysWorldSound | internal/worker/asyncjobs/registry.go:49-86 | Invariant of the composed system: jobs were asked for by finishing their room or by the scheduler, tickets are copies of jobs, handled tickets and completed jobs have done their work |
| EndToEnd.HandlerAchieves | internal/worker/asyncjobs/registry.go:49-86 | A handler that answers no error has emptied its room, or left a report |
| WorldLaws.QueueOfWorld | internal/core/async/runner.go:61-97 | The queue half of a composed run is a run of the memory queue, so every law of those runs holds in it |
| WorldLaws.VoiceOfWorld | internal/app/voiceapp/service.go:121-155 | The service half of a composed run is a run of the service, so every law of those runs holds in it |
| WorldLaws.AttemptsOfWorld | internal/core/async/memory_store.go:37-54 | The attempt bound carried over to the composed system |
| EndToEnd.KeysAreDistinct | internal/app/voiceapp/service.go:146-153 | A job key names its kind and its room; scheduler keys are neither |
| AttemptAccounting.AttemptsAreAccountedFor | internal/core/async/memory_store.go:37-54 | For every job on every interleaving: attempts = claims <= 1 + retry reports + takeovers of expired leases, retry reports <= MaxAttempts - 1, so attempts <= MaxAttempts + takeovers |
| AttemptAccounting.AlwaysAccounted | internal/core/async/runner.go:61-122 | The invariant behind it: each ticket carries an attempt number of its job that no other ticket and no retry report carries |
| LeaseProtocol.OneWorkerInsideLease | internal/core/async/memory_store.go:37-54 | Under timely reports two tickets inside their leases are never on one job |
| LeaseProtocol.ReportMeetsOwnAttempt | internal/core/async/runner.go:88-122 | Under timely reports every report meets its job running, with the reporter's attempt number and lease |
| LeaseProtocol.FinalForever | internal/core/async/memory_store.go:56-94 | Under timely reports a completed or dead-lettered job is never changed again |
| LeaseProtocol.FinalLeftIff | internal/core/async/memory_store.go:56-94 | Without that hypothesis a step leaves Completed or DeadLetter exactly when a ticket on that job reports, and with the outcome that maps elsewhere |
| LeaseProtocol.AlwaysLocked | internal/core/async/memory_store.go:37-94 | Running and having a lease end coincide in every reachable state, late reports included |
| LeaseSharing.ExclusionEndsIff | internal/core/async/memory_store.go:96-107 | From a state with at most one worker inside a lease on each job, a step ends that exactly when it claims a job some worker is inside a lease on |
| LeaseSharing.ExclusiveSoFarIff | internal/core/async/memory_store.go:96-107 | A run, late reports included, has been exclusive all the time exactly when no step so far made such a claim |
| LeaseSharing.FirstSharedLease | internal/core/async/memory_store.go:68-80 | The first such claim meets the job waiting for a retry that a superseded worker's failure report had asked for and whose delay was over before the lease of the worker inside |
| LeaseProtocol.LeasesKeptIff | internal/core/async/memory_store.go:56-94 | Workers inside their leases go on holding their jobs, as running and under their own attempt, exactly unless a step is a report on a job that another worker holds inside its lease |
| LeaseProtocol.LateReportSharesLease | internal/core/async/memory_store.go:68-80 | A run in which a late report puts two workers inside leases on one job, one of which would report on an attempt not its own |
| AttemptBound.BoundExceededIff | internal/core/async/memory_store.go:96-107 | In any run, late reports included, a job has exceeded MaxAttempts exactly when some step claimed it with its attempts used up |
| AttemptBound.TimelyBoundExceededIff | internal/core/async/memory_store.go:96-107 | Under timely reports exactly when the lease of its last attempt ran out and was taken over |
| AttemptBound.ClaimsPastMaximumIff | internal/core/async/memory_store.go:96-107 | In general a claim past the maximum takes over such a lease, or follows a retry after a report by a worker whose attempt had been superseded |
| WorstRuns.AttemptBoundIsTight | internal/core/async/memory_store.go:37-54 | Under every configuration and for every number r of takeovers a timely run reaches attempts = MaxAttempts + r |
| LeaseProtocol.NaiveAttemptBoundFails | internal/core/async/memory_store.go:96-107 | The shortest such run: a job allowed one attempt is attempted twice |
| LeaseProtocol.LateReportRevivesCompletedJob | internal/core/async/memory_store.go:68-80 | A run in which a failure reported after the lease takes a job out of Completed |
| MemoryQueue.OneLiveJobPerKey | internal/core/async/memory_store.go:22-35 | Under timely reports a key has at most one job outside DeadLetter and Failed, and the index points at it |
| MemoryQueue.IdempotentKeptIff | internal/core/async/memory_store.go:22-94 | Any step keeps that, except exactly a report that revives a dead-lettered or failed job whose key has moved on to another job |
| MemoryQueue.LateReportLeavesTwoLiveJobs | internal/core/async/memory_store.go:56-66 | A run in which such a late report leaves two live jobs under one key |
| MemoryQueue.IndexSoundStep | internal/core/async/memory_store.go:22-94 | The key index names stored jobs with that key and covers every job, through any step, late reports included |
| MongoQueue.MongoRefinesMemory | internal/infra/mongo/async_job_store.go:32-111 | Every run of the MongoDB queue is a run of the memory queue through the same jobs, tickets and history; only re-enqueues of a dead key are dropped |
| MongoQueue.MongoRunIsMemoryRun | internal/infra/mongo/async_job_store.go:32-111 | When no key is enqueued again after its job died, it is the very same run |
| MongoQueue.StoresAgreeIff | internal/infra/mongo/async_job_store.go:32-38 | The two stores treat a step alike exactly when it does not re-enqueue a key whose job is dead-lettered or failed |
| MongoQueue.MissingLeaseBranchUnreachable | internal/infra/mongo/async_job_store.go:47-50 | No reachable running document lacks lockedUntil, so that branch of the filter never matters and the filter is readyToClaim |
| MongoQueue.OneDocumentPerKey | internal/infra/mongo/store.go:79 | At most one job per idempotency key in every run, late reports included |
| MongoQueue.MongoRunIsRun | internal/infra/mongo/async_job_store.go:40-74 | A run of the MongoDB queue is a run of the shared protocol, so accounting and lease laws hold of it |
| WorstRuns.NobodyStarvesIff | internal/infra/mongo/async_job_store.go:40-74 | Exact condition: in every timely, tie-free run each ready job is claimed within 1 + (waiting jobs not later than it) + (expired leases taken over meanwhile) claims, if and only if the delays of all attempts before the last are positive |
| NoStarvation.ReadyJobIsClaimed | internal/infra/mongo/async_job_store.go:40-74 | The bound, given that those delays are positive |
| NoStarvation.DueJobIsClaimed | internal/infra/mongo/async_job_store.go:62-64 | Once the clock has passed the instant a ready job was created, no tie is possible and the bound holds outright |
| NoStarvation.Waiting | internal/infra/mongo/async_job_store.go:40-74 | The measure behind it: while a ready job is passed over, the line ahead plus the claims made never exceeds the line at the start plus takeovers |
| NoStarvation.PollFindsSomething | internal/infra/mongo/async_job_store.go:40-74 | While a ready job exists, a poll can claim something |
| NoStarvation.RetriesWaitIff | internal/core/async/runner.go:99-133 | Those delays are positive exactly when the first eleven of them are; a safe base is enough |
| WorstRuns.ReadyJobIsPassedOver | internal/core/async/runner.go:116-133 | For every attempt before the last whose delay is not positive, a timely, tie-free run from the empty queue in which a ready job is first in line and yet not claimed next |
| WorstRuns.AcceptedConfigurationStarves | internal/core/async/runner.go:124-133 | A configuration that is accepted as it is and has such a delay |
| BackoffRuns.ExhaustedJobWasTriedInFull | internal/core/async/runner.go:99-122 | A dead-lettered job that never lost a lease, under timely reports, was claimed exactly MaxAttempts times, the last claim at least the sum of all its delays after the first |
| JobRecords.RecordsTellLastEvent | internal/core/async/memory_store.go:37-94 | In every run, late reports included, each stored job reads as the last event about it left it: a claimed one runs until the lease's end, a failed one waits for the delay of the attempt reported, a dead one names when it died, an untouched one is due since it was filed |
| JobRecords.OrderKept | internal/core/async/memory_store.go:37-94 | A step changes only the job it claims or reports on, names that worker or that error in it, and never what was asked for |
| JobRecords.OrderKeptForGood | internal/core/async/memory_store.go:37-94 | Over a whole run no job is lost and its type, key, payload, maximum and creation stay as enqueued |
| Backoff.DelaysDouble | internal/core/async/runner.go:124-133 | With a safe base the first failure waits min(base, cap), each of the next ten min(twice the delay before it, cap), and all later ones the same again |
| Backoff.SafeBaseIsExact | internal/core/async/runner.go:124-133 | Every attempt under every cap waits as intended, the base doubled by each of the ten attempts after the first and capped, exactly when base <= (2^63 - 1) / 1024 |
| Backoff.DelayIsIntendedIff | internal/core/async/runner.go:124-133 | For one attempt: the delay is the one doubled step by step exactly when base * 2^min(attempt-1,10) fits int64 or wraps onto something not below the cap |
| Backoff.SafeDelayMonotone | internal/core/async/runner.go:124-133 | With a safe base a later attempt never waits less |
| Backoff.SafeDelay | internal/core/async/runner.go:124-133 | With a safe base every delay is the intended one, positive and at most the cap |
| Backoff.DelayNeverExceedsMax | internal/core/async/runner.go:124-133 | No delay after a claim exceeds the cap, overflow included |
| Backoff.OverflowCollapsesDelay | internal/core/async/runner.go:124-133 | An accepted configuration whose third attempt retries at once |
| AsyncTypes.NewQueue | internal/core/async/types.go:65-85 | Each non-positive setting becomes its default, every other is kept |
| MemoryJobStore.MemoryStore.Enqueue | internal/core/async/memory_store.go:22-35 | Dropped exactly while the job its key points at is neither dead-lettered nor failed; else filed and indexed |
| MemoryJobStore.MemoryStore.ClaimNext | internal/core/async/memory_store.go:37-54 | Takes some ready job, with attempt and lease written, or nothing exactly when no job is ready; all else unchanged |
| MemoryJobStore.MemoryStore.RetryJob | internal/core/async/memory_store.go:68-80 | Reschedules the job whoever holds it; an unknown id changes nothing |
| MemoryJobStore.MemoryStore.BuryJob | internal/core/async/memory_store.go:82-94 | Dead-letters the job whoever holds it; an unknown id changes nothing |
| MongoJobStore.AsyncJobStore.Enqueue | internal/infra/mongo/async_job_store.go:32-38 | Inserts unless a document has the same id or key; the refusal is silent |
| MongoJobStore.AsyncJobStore.FindFirst | internal/infra/mongo/async_job_store.go:40-64 | Finds a match no other match precedes by runAfter, then createdAt, or nothing exactly when nothing matches |
| MongoJobStore.AsyncJobStore.ClaimNext | internal/infra/mongo/async_job_store.go:40-74 | Updates that document with attempt and lease in one step and keeps keys unique |
| MongoJobStore.AsyncJobStore.RetryJob | internal/infra/mongo/async_job_store.go:87-98 | The same update as the memory store's |
| MongoJobStore.AsyncJobStore.BuryJob | internal/infra/mongo/async_job_store.go:100-111 | The same update as the memory store's |
| JobRunner.Queue.Enqueue | internal/core/async/types.go:87-106 | Builds a pending job due at once and files it unless deduplicated |
| JobRunner.Runner.Fail | internal/core/async/runner.go:99-122 | Dead-letters at the last attempt of the worker's copy, else reschedules by the backoff |
| JobRunner.Runner.ProcessOnce | internal/core/async/runner.go:61-97 | One poll: claims a ready job if there is one and reports complete, retry or dead letter from its own copy; a missing handler is a failure |
| MemoryQueue.MemRunIsRun | internal/core/async/memory_store.go:22-107 | A run of the memory queue is a run of the shared protocol |
| RoomLaws.RoomLifecycle | internal/app/voiceapp/service.go:95-155 | Between any two moments a room keeps owner and role lists, never steps back from Draft, Live, Finished, keeps the instants already stamped, and has StartedAt and EndedAt set exactly from those stages on |
| RoomLaws.RoomMovesOneStageAtATime | internal/app/voiceapp/service.go:95-155 | Each command moves a room one stage at most and stamps it with its own instant; new rooms are drafts |
| RoomLaws.AuthorityLasts | internal/domain/voice/types.go:154-180 | Whoever may moderate a room may moderate it ever after |
| RoomLaws.EndedForever | internal/app/voiceapp/service.go:304-330 | A session that is not active never becomes active again, and has its leaving time set |
| RoomLaws.OneRequestOneBlock | internal/app/voiceapp/service.go:340-373 | At most one pending request and one active block per room and user in every reachable state |
| RoomLaws.DecidedForever | internal/app/voiceapp/service.go:785-813 | A decided request never changes again |
| RoomLaws.NoRequestWhileBlocked | internal/app/voiceapp/service.go:348-352 | No new request of a user appears in a room while they are blocked there |
| RoomLaws.AlwaysSound | internal/app/voiceapp/service.go:61-502 | The invariant: records under their ids, rooms staged, Active exactly while LeftAt is unset, one pending request and one active block |
| VoiceRuns.DecisionsAreLegal | internal/app/voiceapp/service.go:61-813 | Whatever a command writes obeys the rules the laws are proved from: who may act, in which stage, which fields move, and the event that goes with it |
| VoiceEffects.BlockSilences | internal/app/voiceapp/service.go:449-478 | After a block exactly one is active and the user's next request is refused for it |
| VoiceEffects.UnblockRestores | internal/app/voiceapp/service.go:480-502 | Unblocking leaves no active block on the user and nobody else's changed |
| VoiceEffects.DecisionSetsRole | internal/app/voiceapp/service.go:785-826 | Approving makes the requester, and only them, a speaker; declining changes no role |
| VoiceEffects.RemovalClearsUser | internal/app/voiceapp/service.go:504-537 | Removing ends exactly the user's active sessions in that room |
| VoiceEffects.HeartbeatKeepsAlive | internal/app/voiceapp/service.go:275-302 | A heartbeat takes exactly that session off the stale ones for every cutoff up to its instant |
| VoiceEffects.LeavingOverwrites | internal/app/voiceapp/service.go:304-330 | Leaving is refused exactly to others than the session's room and user; it rewrites an ended session too |
| VoiceEffects.RecordingRoundTrip | internal/app/voiceapp/service.go:539-622 | Start then stop: completed, duration in whole seconds, retention applied, room as before but for its update time |
| RecordingLaws.ActiveRecordingIff | internal/app/voiceapp/service.go:539-622 | In every reachable state a recording is its room's active one if and only if the room's last recording event started it; so a started one is not active exactly when another start or any stop came later |
| RecordingLaws.ActiveRecordingIsStarted | internal/app/voiceapp/service.go:539-622 | A non-empty active recording always names a started recording of its room |
| RecordingLaws.RecordingIsLost | internal/app/voiceapp/service.go:584-622 | A reachable room with one recording still started and none active, after the other one was stopped |
| VoiceEffects.StoppingClearsWhicheverIsActive | internal/app/voiceapp/service.go:608-617 | Stopping any recording of the room clears the active one and touches no other recording |
| VoiceEffects.WhoModeratesNewRoom | internal/app/voiceapp/service.go:61-93 | A new room is moderated by its owner and by exactly the users its lists name once trimmed |
| VoiceEffects.UniqueStringsAreUnique | internal/app/voiceapp/service.go:911-926 | The list holds each trimmed non-blank value exactly once |
| VoiceEffects.UniqueStringsInOrder | internal/app/voiceapp/service.go:911-926 | Further values only add to the end, so the order is that of first appearance |
| VoiceService.UniqueStrings | internal/app/voiceapp/service.go:911-926 | The loop with its seen-set computes that list in order of first appearance |
| PresenceLaws.PresenceAlwaysAgrees | internal/app/voiceapp/service.go:194-330 | In every reachable state the presence sets of every room are exactly its active sessions |
| PresenceLaws.CountsDoNotDependOnPresence | internal/app/voiceapp/service.go:161-192 | So ActiveCounts gives the same numbers with and without presence |
| RedisRuns.RedisCountsActiveSessions | internal/infra/redis/presence_store.go:19-79 | Along any run the two Redis sets of a room hold exactly its active listeners and participants |
| PresenceStores.RedisRefinesArrivals | internal/infra/redis/presence_store.go:19-66 | After an arrival the key space shows what the nested maps hold |
| PresenceStores.RedisRefinesDepartures | internal/infra/redis/presence_store.go:42-74 | After a departure the key space shows what the nested maps hold, and deleting session keys touches no room set |
| PresenceStores.RoomKeysAreDistinct | internal/infra/redis/presence_store.go:89-99 | Set keys determine their room and never mix listeners with participants |
| EventReplay.LogRebuildsTables | internal/app/voiceapp/service.go:880-900 | Folding the event log of any reachable state from nothing rebuilds its rooms with their active recordings, speaker requests, blocks, recordings and latest reports exactly |
| SessionReplay.SessionToldIff | internal/app/voiceapp/service.go:880-900 | For every reachable state and session: the log tells of exactly the stored sessions, and the record it yields is the stored one if and only if the last command that wrote the session was neither a room close nor a removal whose event was stamped at another instant than its records |
| SessionReplay.RemovalToldButTimes | internal/app/voiceapp/service.go:515-536 | After a removal the log yields the stored record but for the leaving and update times |
| EventReplay.CloseLeavesNoTrace | internal/app/voiceapp/service.go:728-748 | A room close changes sessions, if any is active, and tells the log nothing |
| SpeakerTokens.TokensGoToSpeakersOnly | docs/architecture.md:24 | Every LiveKit token went to a user on the room's lists, or to one approved, in the log before the token, by someone who can moderate the room |
| SpeakerTokens.JoinIsOneKind | internal/app/voiceapp/service.go:194-273 | A join yields exactly one kind of session with the matching descriptor; only speakers get a token; a refused join writes nothing |
| JoinLaws.AnswerSaysWhatHolds | internal/app/voiceapp/service.go:194-273 | Every successful join or speaker session: may moderate, record and report exactly if the room lets the user moderate, may speak exactly if a speaker descriptor is answered, which is exactly when a token is issued; role and channels are those of the room's lists and approvals |
| JoinLaws.PermissionsLast | internal/app/voiceapp/service.go:828-834 | A permission once answered is good in every later state: no moderating command, and no speaker session, is then refused for lack of it |
| JoinLaws.ModeratorsAreHeard | internal/app/voiceapp/service.go:828-834 | At once, a moderating command is refused for lack of permission exactly to those who cannot moderate the room |
| JoinLaws.RequestLeadsToSpeaking | internal/app/voiceapp/service.go:340-432 | Whoever is neither blocked nor waiting in a live room: the request is accepted, so is a moderator's decision, and then a speaker session exactly if that approved or the user could speak before |
| Answers.RefusedForFirstFailing | internal/app/voiceapp/service.go:61-813 | Every command of the service answers the refusal of the first check that fails, of a list of checks stated on the records alone |
| Answers.AcceptedIff | internal/app/voiceapp/service.go:61-813 | So it is accepted exactly when all its checks pass, and a refused one writes nothing |
| Reference.ServiceMeetsTable | internal/app/voiceapp/service.go:61-813 | For every command and state the service leaves exactly the records, events, tokens and job requests of a table that names them outright |
| Reference.RequestPlaced | internal/app/voiceapp/service.go:340-373 | A request to speak is accepted exactly in a live room without an active block or a pending request, a conflict exactly for the latter; it is then the one pending request, no other changes, and one event tells who asked |
| Reference.ExpiryTakes | internal/app/voiceapp/service.go:697-704 | An expiry run takes active sessions silent since before the cutoff, as many as there are up to the limit, or 100 for a limit of zero or below |
| Reference.RoomAnswersAreStored | internal/app/voiceapp/service.go:95-155 | Starting or finishing answers the room as stored |
| Reference.RequestAnswersAreStored | internal/app/voiceapp/service.go:340-373 | Asking and deciding answer the request as stored |
| Reference.BlockAnswersAreStored | internal/app/voiceapp/service.go:449-502 | Blocking and unblocking answer a stored block on that user, standing exactly after blocking |
| Reference.RecordingAnswersAreStored | internal/app/voiceapp/service.go:539-622 | Starting and stopping answer the recording as stored |
| Reference.WholeSecondsTowardZero | internal/app/voiceapp/service.go:603 | A duration in seconds is truncated toward zero |
| Channels.JoinChannelsStayOpen | internal/app/voiceapp/service.go:837-878 | Every channel listed by a join, or by a speaker session, is authorised for that user in every later state |
| Channels.AuthorizedIff | internal/app/voiceapp/service.go:849-878 | For every user and channel name: open are the user's own channel, every listener_session channel, and every name starting with room: and a stored room, except its admin channel for those who cannot moderate it; the rest is refused, as a missing room exactly when it names one |
| Channels.UserChannelIsPrivate | internal/app/voiceapp/service.go:850-855 | A user's channel is open to that user and refused to every other |
| Channels.RoomTopicAuthorized | internal/app/voiceapp/service.go:856-873 | The answer for a room's channel and for every name behind it, stored room or not |
| Channels.RoomChannelAuthorized | internal/app/voiceapp/service.go:849-878 | A room's channel is authorised while the room exists, its admin channel exactly for those who can moderate it |
| Channels.RoleOnlyRises | internal/app/voiceapp/service.go:815-826 | A user's resolved role never falls, not even by revocation or a block, and stays put once it can moderate |
| Channels.JoinChannelsSubscribeIff | internal/app/voiceapp/service.go:768-783 | Subscription tokens keep the channel promise exactly for users whose id is not blank |
| WorldExpiry.ExpiredHadBeenSilent | internal/worker/asyncjobs/registry.go:78-86 | Over every run of the composed system each expired session had been silent for longer than the listener timeout when it was ended |
| ExpiryLaws.ExpiredOnlyIfSilent | internal/app/voiceapp/service.go:697-726 | Whatever the command, an expired session was expired before and is untouched, or an expiry run has just ended it, from Active with its last heartbeat before the cutoff |
| WorldExpiry.OverdueListenersAreCleared | internal/worker/asyncjobs/registry.go:78-86 | The clearing of overdue listeners for one process over the memory queue |
| WorldExpiry.WorldHistory | internal/worker/asyncjobs/registry.go:78-86 | Every run of the composed system, with expiry jobs at any instants and any commands in between, is a history the draining laws speak of |
| ExpiryLaws.OverdueConserved | internal/app/voiceapp/service.go:697-726 | With moving cutoffs and other commands in between: overdue before + become overdue = expired + got away + overdue after, exactly |
| ExpiryLaws.ExpiryDrains | internal/app/voiceapp/service.go:697-726 | Of those overdue at one moment none is left at a later one, or every expiry run in between was a full batch |
| ExpiryLaws.OverdueAreCleared | internal/app/voiceapp/service.go:697-726 | So runs * limit at least the overdue and the newly overdue together clears everyone who was overdue |
| ExpiryLaws.OverdueLeft | internal/app/voiceapp/service.go:697-726 | If nobody else becomes overdue at most max(n - r * limit, 0) of n are left after r runs, and exactly that many if nobody gets away otherwise |
| ExpiryLaws.DrainedIff | internal/app/voiceapp/service.go:697-726 | In that last case none is overdue exactly when r >= ceil(n / limit) |
| ExpiryLaws.ExpiryRunCounts | internal/infra/memory/store.go:103-117 | One run expires min(limit, stale) sessions and removes exactly those |
| ReportLaws.ReportMeansWhatItSays | internal/infra/memory/store.go:272-288 | In every reachable state the listening seconds are the whole seconds of each stay summed, from joining to leaving whenever the report is made, or to now if still active; the exact time lies in [seconds, seconds + joins) seconds |
| ReportLaws.ReportCountsPeople | internal/infra/memory/store.go:289-305 | In every reachable state: listeners = distinct users of the room's join events, joins = those events, speakers = distinct users ever issued a token for the room, peak = active sessions now |
| ReportLaws.QuietRoomReportsTheSame | internal/infra/memory/store.go:278-284 | A room without active sessions reports the same at any two instants |
| ReportLaws.SpeakersAndListeners | internal/infra/memory/store.go:272-296 | The participants counted as speakers are the token holders of the room, the users of its sessions those who joined in the log |
| ReportHistory.ReportsNeverShrink | internal/infra/memory/store.go:261-305 | Along any run a later report of a room counts no fewer joins, listeners, speakers and seconds than an earlier one |
| PeakLaws.ReportedPeakIff | internal/infra/memory/store.go:301 | The reported peak never exceeds the most listeners a room had at once, and equals it exactly when the room never had more than now |
| PeakLaws.PeakAfterFinishIff | internal/infra/memory/store.go:301 | After the finish exactly when the room was at its peak when it finished and nobody has gone since |
| PeakLaws.FinishedOnlyLoses | internal/app/voiceapp/service.go:199-201 | From its finish on a room only loses listeners |
| ReportLaws.SessionsMatchJoinEvents | internal/app/voiceapp/service.go:246-268 | A room has as many listener sessions as the log has join events for it |
| ReportLaws.TotalPicks | internal/infra/memory/store.go:272-288 | The total may be taken in any order of the sessions |
| ReportLaws.RoundingLoss | internal/infra/memory/store.go:282-284 | Rounding each stay down loses less than a second a stay |
| VoiceStore.Store.ListActiveListenerSessions | internal/infra/memory/store.go:77-88 | Copies of exactly the room's active sessions, each once |
| VoiceStore.Store.ListActiveListenerSessionsByUser | internal/infra/memory/store.go:90-101 | Copies of exactly the user's active sessions in the room, each once |
| VoiceStore.Store.ListStaleListenerSessions | internal/infra/memory/store.go:103-117 | As many different stale sessions as there are, up to the limit; a limit of zero or below is none |
| VoiceStore.Store.CountActiveListeners | internal/infra/memory/store.go:119-129 | The number of active sessions of the room |
| VoiceStore.Store.CountActiveParticipantSessions | internal/infra/memory/store.go:139-149 | The number of active participants of the room |
| VoiceStore.Store.FindSpeakerRequest | internal/infra/memory/store.go:178-188 | Some request of the user with that status, or none exactly when there is none |
| VoiceStore.Store.GetActiveSpeakingBlock | internal/infra/memory/store.go:198-208 | Some active block of the user, or none exactly when there is none |
| VoiceStore.Store.ScanSessions | internal/infra/memory/store.go:272-288 | The loop's counters equal the declared sums over the room's sessions, in whatever order the map gives them |
| VoiceStore.Store.ReportStatsOf | internal/infra/memory/store.go:261-305 | The statistics equal their declarative definition, with the current active count as the peak |
| VoiceStore.Store.ScanParticipants | internal/infra/memory/store.go:289-296 | The distinct users among the room's participants whose role uses LiveKit |
| VoiceService.Service.CreateRoom | internal/app/voiceapp/service.go:61-93 | New state and answer are those decided for the command |
| VoiceService.Service.StartRoom | internal/app/voiceapp/service.go:95-119 | New state and answer are those decided for the command |
| VoiceService.Service.FinishRoom | internal/app/voiceapp/service.go:121-155 | New state, with the two jobs asked for, and answer are those decided for the command |
| VoiceService.Service.ActiveCounts | internal/app/voiceapp/service.go:161-192 | The counts of the presence sets if there are any, else of the store, and their sum |
| VoiceService.Service.JoinRoom | internal/app/voiceapp/service.go:194-273 | New state, presence and token included, and answer are those decided for the command |
| VoiceService.Service.ListenerHeartbeat | internal/app/voiceapp/service.go:275-302 | New state and answer are those decided for the command |
| VoiceService.Service.LeaveListener | internal/app/voiceapp/service.go:304-330 | New state and answer are those decided for the command |
| VoiceService.Service.RequestToSpeak | internal/app/voiceapp/service.go:340-373 | New state and answer are those decided for the command |
| VoiceService.Service.CreateSpeakerSession | internal/app/voiceapp/service.go:383-432 | New state and answer are those decided for the command |
| VoiceService.Service.DecideSpeakerRequest | internal/app/voiceapp/service.go:785-813 | New state and answer are those decided for the command |
| VoiceService.Service.RevokeSpeaker | internal/app/voiceapp/service.go:434-447 | Only the log changes |
| VoiceService.Service.BlockSpeaking | internal/app/voiceapp/service.go:449-478 | New state and answer are those decided for the command, over the block found or made |
| VoiceService.Service.UnblockSpeaking | internal/app/voiceapp/service.go:480-502 | New state and answer are those decided for the command, over the block found |
| VoiceService.Service.RemoveParticipant | internal/app/voiceapp/service.go:504-537 | The loop's effect is that of ending the listed sessions at once, in the order listed |
| VoiceService.Service.StartRecording | internal/app/voiceapp/service.go:539-582 | New state and answer are those decided for the command |
| VoiceService.Service.StopRecording | internal/app/voiceapp/service.go:584-622 | New state and answer are those decided for the command |
| VoiceService.Service.GenerateReport | internal/app/voiceapp/service.go:662-695 | New state and answer are those decided for the command |
| VoiceService.Service.ExpireStaleListenerSessions | internal/app/voiceapp/service.go:697-726 | The loop's effect is that of expiring the listed sessions at once, and it answers how many |
| VoiceService.Service.CloseRoomSessions | internal/app/voiceapp/service.go:728-748 | The loop's effect is that of ending the room's active sessions at once |
| JobRegistry.Registry.CloseRoomSessions | internal/worker/asyncjobs/registry.go:49-55 | Runs exactly the close command of the job's room |
| JobRegistry.Registry.GenerateRoomReport | internal/worker/asyncjobs/registry.go:57-76 | Runs the report command for the named actor or else the owner and fails exactly when it does; no command runs if nobody is named and the room is gone |
| JobRegistry.Registry.ExpireStaleListenerSessions | internal/worker/asyncjobs/registry.go:78-86 | Runs the expiry command with the timeout's cutoff and batch, expiring min(250, stale) sessions |
| Timer.TimerRoundTrip | client/src/components/room/live-room-page.tsx:37-63 | parseDuration(formatTimer(n)) = max(n, 0) for every integer, hours past two digits included |
| Timer.TimerIsInjective | client/src/components/room/live-room-page.tsx:37-46 | Different durations never print alike |
| Timer.TimerFields | client/src/components/room/live-room-page.tsx:37-46 | The fields printed are hours, minutes and seconds in that order, two digits at least |
| Text.JoinOfSplit | client/src/components/room/live-room-page.tsx:49-49 | Joining the pieces of a split gives the text back |
| Text.SplitAtFirst | client/src/components/room/live-room-page.tsx:49-49 | A split at the first separator |
| Text.TrimTakesOnlySpace | internal/app/voiceapp/service.go:915 | Trimming takes whitespace off both ends and nothing else |
| Text.TrimTakesOnlySlashes | internal/app/voiceapp/service.go:566 | The same for slashes |
| Text.ValueOfDecimal | client/src/components/room/live-room-page.tsx:43-45 | A printed number reads back as itself |

## Left out

- HTTP routing, JSON encoding and decoding, user profiles, CORS, configuration loading, logging.
- Correlation ids, event ids and versions, and the name strings of event types: carried along, never decided on.
- The Kafka producer and the realtime dispatcher: the delivery guarantee rests on a client library not visible here.
- LiveKit, Centrifugo and S3 signing and playback URLs: a token is a record of room, user and role; descriptors keep
  the room name, identity and session id only.
- The MongoDB driver, BSON and its time precision: a collection is a map with atomic find-and-update, so two instants a
  millisecond apart stay apart.
- The MongoDB form of the voice store: the in-memory one is modelled.
- Redis expiry and the writes of session state hashes and last-seen keys: nothing reads them; only
  deletions that share the key space with the room sets are kept.
- Goroutines, tickers and cancellation: replaced by any interleaving of steps.
- Infrastructure errors part-way through a command, a full disk or a lost connection.
- `time.Duration` arithmetic outside the backoff is unbounded; `Seconds()` is integer division of nanoseconds.
- JavaScript numbers are exact only up to 2^53 - 1; the timer laws hold for all integers and so for those.
- Handlers registered as no-ops pending an adapter (`internal/worker/asyncjobs/registry.go:88-93`).
- A missing job queue (`SetJobQueue` never called) is a run of the composed system in which no request is delivered.
- Listings of recordings, single-record getters of the service, playback authorisation: nothing beyond a lookup.
- Room statuses Scheduled, Ending and Cancelled are handled by the commands as in the code; no command enters them.
- MongoWorld.RoomClosedForGood: safety only; that an enqueued close job is eventually completed also needs a worker
  that keeps polling and handlers that keep succeeding; `DeliveredJobIsClaimed` bounds the claims it waits for.
