/** The job handlers (internal/worker/asyncjobs/registry.go): each decodes a payload and runs one service command. */
module JobRegistry {
  import opened Base
  import opened VoiceTypes
  import opened VoiceState
  import opened VoiceRuns
  import Async = AsyncTypes
  import Do = VoiceCommands
  import VoiceService

  /** How many stale sessions one expiry job takes. */
  const EXPIRY_BATCH := 250

  /** A payload read as a room and an actor; fields it does not have come out empty. */
  function RoomFields(payload: Async.Payload): (string, string) {
    match payload
    case RoomJob(roomId, actorUserId) => (roomId, actorUserId)
    case Scheduled(_) => ("", "")
  }

  /** The command the handler of a job runs at `now`. A report is asked for by the owner if the job names nobody. */
  predicate Handles(timeout: Time, s: State, job: Async.Job, cmd: Command, now: Time) {
    var (room, named) := RoomFields(job.payload);
    match cmd
    case CloseRoomSessions(roomId, _) => job.jobType == Do.CLOSE_ROOM_SESSIONS && roomId == room
    case GenerateReport(roomId, actor, _) =>
      && job.jobType == Do.GENERATE_ROOM_REPORT && roomId == room
      && (if named != "" then actor == named else room in s.rooms && actor == s.rooms[room].ownerId)
    case ExpireStale(cutoff, limit, _) =>
      job.jobType == Do.EXPIRE_LISTENER_SESSIONS && cutoff == now - timeout && limit == EXPIRY_BATCH
    case _ => false
  }

  /** Whether the handler's command answers no error. */
  ghost predicate HandlerSucceeds(s: State, cmd: Command, now: Time) {
    cmd.GenerateReport? ==> Do.GenerateReport(s, cmd.roomId, cmd.actor, cmd.reportId, now).1.Ok?
  }

  class Registry {
    const service: VoiceService.Service
    const timeout: Time

    constructor (service: VoiceService.Service, listenerTimeout: Time)
      ensures this.service == service && timeout == listenerTimeout
    {
      this.service, timeout := service, listenerTimeout;
    }

    method CloseRoomSessions(job: Async.Job, now: Time) returns (ghost cmd: Command)
      requires service.Valid() && job.jobType == Do.CLOSE_ROOM_SESSIONS
      modifies service.store`sessions, service.presence
      ensures service.Valid()
      ensures Handles(timeout, old(service.View()), job, cmd, now) && Possible(old(service.View()), cmd)
      ensures service.View() == Apply(service.cfg, old(service.View()), cmd, now)
    {
      hide Do.CloseRoomSessions, Write, Do.Lists, ActiveIn;
      var (roomId, _) := RoomFields(job.payload);
      ghost var order := service.CloseRoomSessions(roomId, now);
      cmd := Command.CloseRoomSessions(roomId, order);
    }

    /** No command runs at all if the job names nobody and its room is gone. */
    method GenerateRoomReport(job: Async.Job, reportId: string, now: Time)
      returns (error: Option<Error>, ghost cmd: Option<Command>)
      requires service.Valid() && job.jobType == Do.GENERATE_ROOM_REPORT
      modifies service.store`reports, service.store`events
      ensures service.Valid()
      ensures match cmd
              case Some(run) =>
                && Handles(timeout, old(service.View()), job, run, now) && Possible(old(service.View()), run)
                && service.View() == Apply(service.cfg, old(service.View()), run, now)
                && (error.None? <==> HandlerSucceeds(old(service.View()), run, now))
              case None =>
                && RoomFields(job.payload).1 == "" && RoomFields(job.payload).0 !in old(service.View()).rooms
                && error == Some(RoomNotFound) && service.View() == old(service.View())
    {
      hide Do.GenerateReport, Write;
      var (roomId, actorId) := RoomFields(job.payload);
      if actorId == "" {
        var room := service.store.GetRoom(roomId);
        if room.Err? {
          return Some(room.error), None;
        }
        actorId := room.value.ownerId;
      }
      var report := service.GenerateReport(roomId, actorId, reportId, now);
      error := if report.Err? then Some(report.error) else None;
      cmd := Some(Command.GenerateReport(roomId, actorId, reportId));
    }

    method ExpireStaleListenerSessions(job: Async.Job, now: Time) returns (expired: nat, ghost cmd: Command)
      requires service.Valid() && job.jobType == Do.EXPIRE_LISTENER_SESSIONS
      modifies service.store`sessions, service.store`events, service.presence
      ensures service.Valid()
      ensures Handles(timeout, old(service.View()), job, cmd, now) && Possible(old(service.View()), cmd)
      ensures service.View() == Apply(service.cfg, old(service.View()), cmd, now)
      ensures expired == Min(250, |Stale(old(service.View()).sessions, now - timeout)|)
    {
      hide Do.ExpireEach, Do.ExpiryEvents, Write, Stale;
      var cutoff := now - timeout;
      ghost var order;
      expired, order := service.ExpireStaleListenerSessions(cutoff, EXPIRY_BATCH, now);
      cmd := Command.ExpireStale(cutoff, EXPIRY_BATCH, order);
    }
  }
}
