/**
 Presence without Redis: the API and the worker process each keep sets of their own. The API marks who arrives and
 leaves through it; the worker ends sessions the API never hears of.
 */
module ProcessPresence {
  import opened Base
  import opened VoiceTypes
  import opened VoiceState
  import opened VoiceRuns
  import VoiceLaws
  import JobRegistry
  import opened EndToEnd
  import WorldLaws
  import opened MongoWorld
  import Do = VoiceCommands
  import Async = AsyncTypes
  import PresenceLaws

  function Without(p: Presence, ended: seq<ListenerSession>): Presence {
    if ended == [] then p
    else
      var before := Without(p, ended[..|ended| - 1]);
      var last := ended[|ended| - 1];
      before.(listeners := Removed(before.listeners, last.roomId, last.id))
  }

  /** The sets of the process that ran the command. */
  function Marked(p: Presence, change: Change): Presence {
    match change
    case PutSpeaker(session) => p.(participants := Added(p.participants, session.roomId, session.id))
    case PutListener(session, _) => p.(listeners := Added(p.listeners, session.roomId, session.id))
    case EndListeners(ended, _) => Without(p, ended)
    case _ => p
  }

  /** The sessions a command writes. */
  function Written(change: Change): set<string> {
    match change
    case PutListener(session, _) => {session.id}
    case EndListeners(ended, _) => set k | 0 <= k < |ended| :: ended[k].id
    case _ => {}
  }

  ghost function ChangeAt(x: Settings, ws: seq<Shared>, steps: seq<Step>, k: nat): Change
    requires SharedRun(x, ws, steps) && k < |steps|
  {
    SharedVoiceHalf(x, ws[k], steps[k]);
    if WorldLaws.CommandOf(steps[k]).None? then Nothing
    else Decide(x.service, ws[k].voice, WorldLaws.CommandOf(steps[k]).value, ws[k].core.clock)
  }

  /** The API's sets beside a run: empty at first, and marked by the commands it serves. */
  ghost predicate KeptByApi(x: Settings, ws: seq<Shared>, steps: seq<Step>, ps: seq<Presence>)
    requires SharedRun(x, ws, steps)
  {
    && |ps| == |ws| && ps[0] == Presence(map[], map[])
    && forall k :: 0 <= k < |steps| ==>
         ps[k + 1] == if steps[k].Serve? then Marked(ps[k], ChangeAt(x, ws, steps, k)) else ps[k]
  }

  /** The sessions whose last writer was the worker process. */
  ghost function ByWorker(x: Settings, ws: seq<Shared>, steps: seq<Step>, i: nat): set<string>
    requires SharedRun(x, ws, steps) && i < |ws|
    decreases i
  {
    if i == 0 then {}
    else
      var before, written := ByWorker(x, ws, steps, i - 1), Written(ChangeAt(x, ws, steps, i - 1));
      if steps[i - 1].Work? then before + written else before - written
  }

  // ----- The invariant -----

  predicate IsIn(sessions: map<string, ListenerSession>, roomId: string, id: string) {
    id in sessions && sessions[id].roomId == roomId
  }

  /** A room's set holds its active sessions and those the worker wrote last. */
  ghost predicate Counts(sessions: map<string, ListenerSession>, present: map<string, set<string>>, worker: set<string>) {
    && (forall roomId, id ::
          id in Members(present, roomId)
          <==> IsIn(sessions, roomId, id) && (sessions[id].status == SessionActive || id in worker))
    && (forall id :: id in worker ==> id in sessions && sessions[id].status != SessionActive)
  }

  lemma CountsArrival(sessions: map<string, ListenerSession>, present: map<string, set<string>>, worker: set<string>,
                      session: ListenerSession)
    requires Counts(sessions, present, worker) && session.status == SessionActive
    requires session.id in sessions ==>
               sessions[session.id].roomId == session.roomId && sessions[session.id].status == SessionActive
    ensures Counts(sessions[session.id := session], Added(present, session.roomId, session.id), worker - {session.id})
  {
    var sessions', present' := sessions[session.id := session], Added(present, session.roomId, session.id);
    forall roomId, id
      ensures id in Members(present', roomId)
         <==> IsIn(sessions', roomId, id) && (sessions'[id].status == SessionActive || id in worker - {session.id})
    {
      assert id in Members(present, roomId)
        <==> IsIn(sessions, roomId, id) && (sessions[id].status == SessionActive || id in worker);
    }
  }

  lemma CountsEnd(sessions: map<string, ListenerSession>, present: map<string, set<string>>, worker: set<string>,
                  session: ListenerSession)
    requires Counts(sessions, present, worker) && session.status != SessionActive
    requires session.id in sessions && sessions[session.id].roomId == session.roomId
    ensures Counts(sessions[session.id := session], Removed(present, session.roomId, session.id), worker - {session.id})
  {
    var sessions', present' := sessions[session.id := session], Removed(present, session.roomId, session.id);
    forall roomId, id
      ensures id in Members(present', roomId)
         <==> IsIn(sessions', roomId, id) && (sessions'[id].status == SessionActive || id in worker - {session.id})
    {
      assert id in Members(present, roomId)
        <==> IsIn(sessions, roomId, id) && (sessions[id].status == SessionActive || id in worker);
    }
  }

  lemma CountsElsewhere(sessions: map<string, ListenerSession>, present: map<string, set<string>>, worker: set<string>,
                        session: ListenerSession)
    requires Counts(sessions, present, worker) && session.status != SessionActive
    requires session.id in sessions && sessions[session.id].roomId == session.roomId
    requires sessions[session.id].status == SessionActive || session.id in worker
    ensures Counts(sessions[session.id := session], present, worker + {session.id})
  {
    var sessions' := sessions[session.id := session];
    forall roomId, id
      ensures id in Members(present, roomId)
         <==> IsIn(sessions', roomId, id) && (sessions'[id].status == SessionActive || id in worker + {session.id})
    {
      assert id in Members(present, roomId)
        <==> IsIn(sessions, roomId, id) && (sessions[id].status == SessionActive || id in worker);
    }
  }

  /** The ended sessions as the commands write them: ended, each its own, and in the room of its record. */
  predicate EndsOwn(sessions: map<string, ListenerSession>, ended: seq<ListenerSession>) {
    && (forall k :: 0 <= k < |ended| ==>
          && ended[k].status != SessionActive && ended[k].id in sessions
          && sessions[ended[k].id].roomId == ended[k].roomId)
    && (forall i, j :: 0 <= i < j < |ended| ==> ended[i].id != ended[j].id)
  }

  lemma OneWrittenMore(ended: seq<ListenerSession>, told: seq<Event>)
    requires ended != []
    ensures Written(EndListeners(ended, told))
         == Written(EndListeners(ended[..|ended| - 1], told)) + {ended[|ended| - 1].id}
  {
    var n := |ended| - 1;
    assert forall k :: 0 <= k < n ==> ended[..n][k] == ended[k];
  }

  lemma LastIsUntouched(s: State, ended: seq<ListenerSession>)
    requires ended != [] && EndsOwn(s.sessions, ended)
    ensures var n := |ended| - 1; var before := EndSessions(s, ended[..n]).sessions;
            && EndsOwn(s.sessions, ended[..n])
            && ended[n].id in before && before[ended[n].id] == s.sessions[ended[n].id]
  {
    hide EndSession;
    var n := |ended| - 1;
    VoiceLaws.EndSessionsEffect(s, ended[..n]);
    assert forall k :: 0 <= k < n ==> ended[..n][k].id != ended[n].id;
  }

  lemma {:induction false} CountsEnds(s: State, p: Presence, worker: set<string>, ended: seq<ListenerSession>, told: seq<Event>)
    requires Counts(s.sessions, p.listeners, worker) && EndsOwn(s.sessions, ended)
    ensures Counts(EndSessions(s, ended).sessions, Without(p, ended).listeners, worker - Written(EndListeners(ended, told)))
  {
    hide Counts, Written, EndsOwn, Removed;
    if ended == [] {
      NothingWritten(told);
      assert worker - {} == worker;
    } else {
      var n := |ended| - 1;
      LastIsUntouched(s, ended);
      CountsEnds(s, p, worker, ended[..n], told);
      OneWrittenMore(ended, told);
      OwnAt(s.sessions, ended, n);
      CountsEnd(EndSessions(s, ended[..n]).sessions, Without(p, ended[..n]).listeners,
                worker - Written(EndListeners(ended[..n], told)), ended[n]);
      assert worker - Written(EndListeners(ended[..n], told)) - {ended[n].id} == worker - Written(EndListeners(ended, told));
    }
  }

  lemma NothingWritten(told: seq<Event>)
    ensures Written(EndListeners([], told)) == {}
  {
  }

  lemma OwnAt(sessions: map<string, ListenerSession>, ended: seq<ListenerSession>, k: nat)
    requires EndsOwn(sessions, ended) && k < |ended|
    ensures ended[k].status != SessionActive && ended[k].id in sessions
    ensures sessions[ended[k].id].roomId == ended[k].roomId
  {
  }

  lemma {:induction false} CountsEndsElsewhere(s: State, present: map<string, set<string>>, worker: set<string>,
                                               ended: seq<ListenerSession>, told: seq<Event>)
    requires Counts(s.sessions, present, worker) && EndsOwn(s.sessions, ended)
    requires forall k :: 0 <= k < |ended| ==> ended[k].id in s.sessions && s.sessions[ended[k].id].status == SessionActive
    ensures Counts(EndSessions(s, ended).sessions, present, worker + Written(EndListeners(ended, told)))
  {
    hide Counts, Written, EndsOwn;
    if ended == [] {
      NothingWritten(told);
      assert worker + {} == worker;
    } else {
      var n := |ended| - 1;
      LastIsUntouched(s, ended);
      assert forall k :: 0 <= k < n ==> ended[..n][k] == ended[k];
      CountsEndsElsewhere(s, present, worker, ended[..n], told);
      OneWrittenMore(ended, told);
      OwnAt(s.sessions, ended, n);
      CountsElsewhere(EndSessions(s, ended[..n]).sessions, present,
                      worker + Written(EndListeners(ended[..n], told)), ended[n]);
      assert worker + Written(EndListeners(ended[..n], told)) + {ended[n].id} == worker + Written(EndListeners(ended, told));
    }
  }

  lemma LegalEndsOwn(s: State, change: Change, now: Time)
    requires Legal(s, change, now) && change.EndListeners?
    ensures EndsOwn(s.sessions, change.ended)
  {
  }

  lemma ApiStep(s: State, p: Presence, worker: set<string>, change: Change, now: Time)
    requires Legal(s, change, now) && Counts(s.sessions, p.listeners, worker)
    ensures Counts(Write(s, change).sessions, Marked(p, change).listeners, worker - Written(change))
  {
    hide Counts, Added, LegalRoom, LegalRecording, LegalSpeaker, LegalRequest, LegalBlock, LegalReport, Do.RoleOf;
    match change
    case PutListener(session, _) => CountsArrival(s.sessions, p.listeners, worker, session);
    case EndListeners(ended, told) =>
      LegalEndsOwn(s, change, now);
      VoiceLaws.EndSessionsFrame(s, ended);
      CountsEnds(s, p, worker, ended, told);
    case _ => assert worker - {} == worker;
  }

  /** The worker's handlers only end active sessions, or write a report. */
  lemma WorkerEndsActive(x: Settings, s: State, job: Async.Job, cmd: Command, now: Time)
    requires Keyed(s) && JobRegistry.Handles(x.listenerTimeout, s, job, cmd, now) && Possible(s, cmd)
    ensures var change := Decide(x.service, s, cmd, now);
            && !change.PutListener? && !change.PutSpeaker?
            && (change.EndListeners? ==>
                  forall k :: 0 <= k < |change.ended| ==>
                    && change.ended[k].id in s.sessions
                    && s.sessions[change.ended[k].id].status == SessionActive)
  {
    hide StatsOf;
  }

  lemma EndsElsewhere(s: State, p: Presence, worker: set<string>, change: Change, now: Time)
    requires Legal(s, change, now) && Counts(s.sessions, p.listeners, worker)
    requires !change.PutListener? && !change.PutSpeaker?
    requires change.EndListeners? ==>
               forall k :: 0 <= k < |change.ended| ==>
                 change.ended[k].id in s.sessions && s.sessions[change.ended[k].id].status == SessionActive
    ensures Counts(Write(s, change).sessions, p.listeners, worker + Written(change))
    ensures Write(s, change).participants == s.participants
  {
    hide Counts, Legal, EndsOwn;
    if change.EndListeners? {
      LegalEndsOwn(s, change, now);
      VoiceLaws.EndSessionsFrame(s, change.ended);
      CountsEndsElsewhere(s, p.listeners, worker, change.ended, change.told);
    } else {
      assert worker + {} == worker;
    }
  }

  lemma WorkerStep(x: Settings, s: State, p: Presence, worker: set<string>, job: Async.Job, cmd: Command, now: Time)
    requires Keyed(s) && JobRegistry.Handles(x.listenerTimeout, s, job, cmd, now) && Possible(s, cmd)
    requires Counts(s.sessions, p.listeners, worker)
    ensures var change := Decide(x.service, s, cmd, now);
            && Counts(Write(s, change).sessions, p.listeners, worker + Written(change))
            && Write(s, change).participants == s.participants
  {
    hide Counts, Legal, Decide, JobRegistry.Handles, Possible, Keyed, Written, Write;
    WorkerEndsActive(x, s, job, cmd, now);
    DecisionsAreLegal(x.service, s, cmd, now);
    EndsElsewhere(s, p, worker, Decide(x.service, s, cmd, now), now);
  }

  lemma {:induction false} WithoutKeepsSpeakers(p: Presence, ended: seq<ListenerSession>)
    ensures Without(p, ended).participants == p.participants
  {
    if ended != [] {
      WithoutKeepsSpeakers(p, ended[..|ended| - 1]);
    }
  }

  lemma SpeakersStep(s: State, p: Presence, change: Change, now: Time)
    requires Legal(s, change, now) && PresenceLaws.ParticipantsAgree(s.participants, p.participants)
    ensures PresenceLaws.ParticipantsAgree(Write(s, change).participants, Marked(p, change).participants)
  {
    hide PresenceLaws.ParticipantsAgree, Added, LegalRoom, LegalRecording, LegalRequest, LegalBlock, LegalReport, LegalEnds,
         LegalListener, Do.RoleOf;
    match change
    case PutSpeaker(session) => PresenceLaws.AgreeAfterAdmission(s.participants, p.participants, session);
    case EndListeners(ended, _) =>
      VoiceLaws.EndSessionsFrame(s, ended);
      WithoutKeepsSpeakers(p, ended);
    case _ =>
  }

  lemma ApiCountsStep(x: Settings, ws: seq<Shared>, steps: seq<Step>, ps: seq<Presence>, k: nat, worker: set<string>)
    requires SharedRun(x, ws, steps) && KeptByApi(x, ws, steps, ps) && k < |steps| && |ws| == |steps| + 1 == |ps|
    requires Keyed(ws[k].voice) && Counts(ws[k].voice.sessions, ps[k].listeners, worker)
    requires PresenceLaws.ParticipantsAgree(ws[k].voice.participants, ps[k].participants)
    ensures var written := Written(ChangeAt(x, ws, steps, k));
            && Counts(ws[k + 1].voice.sessions, ps[k + 1].listeners,
                      if steps[k].Work? then worker + written else worker - written)
            && PresenceLaws.ParticipantsAgree(ws[k + 1].voice.participants, ps[k + 1].participants)
  {
    var s, a, now := ws[k].voice, steps[k], ws[k].core.clock;
    SharedRunAt(x, ws, steps);
    SharedVoiceHalf(x, ws[k], a);
    WorksAJob(x, ws[k], a);
    assert ps[k + 1] == if a.Serve? then Marked(ps[k], ChangeAt(x, ws, steps, k)) else ps[k];
    hide SharedRun, SharedEnabled, SharedNext, Counts, Decide, Legal, Write, Keyed, Possible, Written, JobRegistry.Handles,
         PresenceLaws.ParticipantsAgree, Marked, KeptByApi;
    if a.Serve? {
      DecisionsAreLegal(x.service, s, a.cmd, now);
      ApiStep(s, ps[k], worker, Decide(x.service, s, a.cmd, now), now);
      SpeakersStep(s, ps[k], Decide(x.service, s, a.cmd, now), now);
    } else if a.Work? {
      WorkerStep(x, s, ps[k], worker, ws[k].core.tickets[a.ticket], a.handlerCmd, now);
    } else {
      IdleWritesNothing();
      assert worker - {} == worker;
    }
  }

  lemma WorksAJob(x: Settings, w: Shared, a: Step)
    requires SharedEnabled(x, w, a)
    ensures a.Work? ==>
              && a.ticket in w.core.tickets
              && JobRegistry.Handles(x.listenerTimeout, w.voice, w.core.tickets[a.ticket], a.handlerCmd, w.core.clock)
  {
    hide JobRegistry.Handles, Possible;
  }

  lemma IdleWritesNothing()
    ensures Written(Nothing) == {}
  {
  }

  lemma NobodyCounted(w: Shared)
    requires Start(Seen(w))
    ensures Counts(w.voice.sessions, map[], {}) && PresenceLaws.ParticipantsAgree(w.voice.participants, map[])
  {
  }

  lemma {:induction false} AlwaysCounts(x: Settings, ws: seq<Shared>, steps: seq<Step>, ps: seq<Presence>, i: nat)
    requires SharedRun(x, ws, steps) && KeptByApi(x, ws, steps, ps) && i < |ws|
    ensures i < |ps| && Counts(ws[i].voice.sessions, ps[i].listeners, ByWorker(x, ws, steps, i))
    ensures PresenceLaws.ParticipantsAgree(ws[i].voice.participants, ps[i].participants)
  {
    SharedRunAt(x, ws, steps);
    assert |ps| == |ws| && ps[0] == Presence(map[], map[]);
    hide SharedRun, SharedEnabled, SharedNext, Counts, Keyed, Written, PresenceLaws.ParticipantsAgree, KeptByApi, Start,
         ChangeAt;
    if i == 0 {
      NobodyCounted(ws[0]);
    } else {
      AlwaysCounts(x, ws, steps, ps, i - 1);
      SharedKeyed(x, ws, steps, i - 1);
      ApiCountsStep(x, ws, steps, ps, i - 1, ByWorker(x, ws, steps, i - 1));
    }
  }

  /**
   The API's set of a room's listeners is its active sessions and those the worker wrote last. So its count is the
   store's exactly when the worker wrote none of the room's sessions last; speakers always agree.
   */
  lemma ApiCountsIff(x: Settings, ws: seq<Shared>, steps: seq<Step>, ps: seq<Presence>, i: nat, roomId: string)
    requires SharedRun(x, ws, steps) && KeptByApi(x, ws, steps, ps) && i < |ws|
    ensures i < |ps|
    ensures var s := ws[i].voice; var stranded := ByWorker(x, ws, steps, i) * SessionsIn(s.sessions, roomId);
            && Members(ps[i].listeners, roomId) == ActiveIn(s.sessions, roomId) + stranded
            && |Members(ps[i].listeners, roomId)| == |ActiveIn(s.sessions, roomId)| + |stranded|
            && (|Members(ps[i].listeners, roomId)| == |ActiveIn(s.sessions, roomId)| <==> stranded == {})
            && Members(ps[i].participants, roomId) == ParticipantsIn(s.participants, roomId)
  {
    AlwaysCounts(x, ws, steps, ps, i);
    hide SharedRun, KeptByApi, ByWorker;
    CountedSets(ws[i].voice, ps[i], ByWorker(x, ws, steps, i), roomId);
  }

  lemma CountedSets(s: State, p: Presence, worker: set<string>, roomId: string)
    requires Counts(s.sessions, p.listeners, worker) && PresenceLaws.ParticipantsAgree(s.participants, p.participants)
    ensures var stranded := worker * SessionsIn(s.sessions, roomId);
            && Members(p.listeners, roomId) == ActiveIn(s.sessions, roomId) + stranded
            && |Members(p.listeners, roomId)| == |ActiveIn(s.sessions, roomId)| + |stranded|
            && Members(p.participants, roomId) == ParticipantsIn(s.participants, roomId)
  {
    var active, stranded := ActiveIn(s.sessions, roomId), worker * SessionsIn(s.sessions, roomId);
    forall id
      ensures id in Members(p.listeners, roomId) <==> id in active + stranded
      ensures id in Members(p.participants, roomId) <==> id in ParticipantsIn(s.participants, roomId)
    {
      assert id in Members(p.listeners, roomId)
        <==> IsIn(s.sessions, roomId, id) && (s.sessions[id].status == SessionActive || id in worker);
      assert id in Members(p.participants, roomId) <==> PresenceLaws.TakesPartIn(s.participants, roomId, id);
    }
    assert Members(p.listeners, roomId) == active + stranded;
    assert active * stranded == {};
  }

  /** After the close job the API still counts exactly the listeners the worker ended, and nobody else. */
  lemma ClosedRoomStillCounted(x: Settings, ws: seq<Shared>, steps: seq<Step>, ps: seq<Presence>, i: nat, j: nat,
                               roomId: string)
    requires SharedRun(x, ws, steps) && KeptByApi(x, ws, steps, ps) && i <= j < |ws|
    requires WorldLaws.ReportedDone(ws[i].core, Do.CloseKey(roomId))
    ensures j < |ps|
    ensures Members(ps[j].listeners, roomId) == ByWorker(x, ws, steps, j) * SessionsIn(ws[j].voice.sessions, roomId)
  {
    hide SharedRun, KeptByApi, ByWorker, WorldLaws.ReportedDone, Do.CloseKey, SessionsIn, ActiveIn;
    ApiCountsIff(x, ws, steps, ps, j, roomId);
    RoomClosedForGood(x, ws, steps, i, j, roomId);
    assert {} + ByWorker(x, ws, steps, j) * SessionsIn(ws[j].voice.sessions, roomId)
      == ByWorker(x, ws, steps, j) * SessionsIn(ws[j].voice.sessions, roomId);
  }
}
