/**
 The peak of a room's listeners. A report gives the number listening when it is made, which is the peak only if there
 never were more; and the report that follows the close of a room says that nobody ever listened.
 */
module PeakLaws {
  import opened Base
  import opened VoiceState
  import opened VoiceRuns
  import opened VoiceLaws
  import RoomLaws
  import opened EndToEnd
  import opened MongoWorld
  import JobRegistry
  import Do = VoiceCommands
  import WorldLaws

  function Listening(s: State, roomId: string): nat {
    |ActiveIn(s.sessions, roomId)|
  }

  /** The most listeners the room had at once in the first states of a run, up to the i-th. */
  function TruePeak(ss: seq<State>, i: nat, roomId: string): nat
    requires i < |ss|
  {
    var now := Listening(ss[i], roomId);
    if i == 0 then now
    else
      var before := TruePeak(ss, i - 1, roomId);
      if before > now then before else now
  }

  /** It is an upper bound of them all, and some state reaches it. */
  lemma {:induction false} TruePeakIsPeak(ss: seq<State>, i: nat, roomId: string)
    requires i < |ss|
    ensures forall k :: 0 <= k <= i ==> Listening(ss[k], roomId) <= TruePeak(ss, i, roomId)
    ensures exists k :: 0 <= k <= i && Listening(ss[k], roomId) == TruePeak(ss, i, roomId)
  {
    hide Listening;
    if i > 0 && TruePeak(ss, i - 1, roomId) > Listening(ss[i], roomId) {
      TruePeakIsPeak(ss, i - 1, roomId);
      var k :| 0 <= k <= i - 1 && Listening(ss[k], roomId) == TruePeak(ss, i - 1, roomId);
    } else {
      assert Listening(ss[i], roomId) == TruePeak(ss, i, roomId);
      if i > 0 {
        TruePeakIsPeak(ss, i - 1, roomId);
      }
    }
  }

  /** The reported peak never exceeds the true one, and is it exactly when the room never had more listeners than now. */
  lemma ReportedPeakIff(ss: seq<State>, i: nat, roomId: string, now: Time)
    requires i < |ss|
    ensures StatsOf(ss[i], roomId, now).peakConcurrentListeners <= TruePeak(ss, i, roomId)
    ensures StatsOf(ss[i], roomId, now).peakConcurrentListeners == TruePeak(ss, i, roomId)
       <==> forall k :: 0 <= k <= i ==> Listening(ss[k], roomId) <= Listening(ss[i], roomId)
  {
    hide TruePeak, TotalSeconds;
    TruePeakIsPeak(ss, i, roomId);
  }

  lemma OverLosesOnly(s: State, change: Change, now: Time, roomId: string)
    requires RoomLaws.Sound(s) && Legal(s, change, now) && RoomOver(s, roomId)
    ensures RoomOver(Write(s, change), roomId) && Listening(Write(s, change), roomId) <= Listening(s, roomId)
  {
    hide RoomLaws.Sound, Legal, ActiveIn, RoomsSucceed, RoomsStaged, Write;
    NoNewListeners(s, change, now, roomId);
    ChangeCarries(s, change, now);
    OverStays(s, Write(s, change), roomId);
    SmallerSet(ActiveIn(Write(s, change).sessions, roomId), ActiveIn(s.sessions, roomId));
  }

  lemma OverStays(s: State, s': State, roomId: string)
    requires Carries(s, s') && RoomOver(s, roomId)
    ensures RoomOver(s', roomId)
  {
    hide ActiveIn;
    assert Successor(s.rooms[roomId], s'.rooms[roomId]) && Staged(s'.rooms[roomId]);
  }

  lemma SmallerSet(small: set<string>, large: set<string>)
    requires small <= large
    ensures |small| <= |large|
  {
    assert large == small + (large - small);
  }

  /** From its finish on a room only loses listeners. */
  lemma {:induction false} FinishedOnlyLoses(cfg: ServiceConfig, ss: seq<State>, cmds: seq<Command>, times: seq<Time>,
                                             i: nat, j: nat, roomId: string)
    requires Run(cfg, ss, cmds, times) && i <= j < |ss| && RoomOver(ss[i], roomId)
    ensures RoomOver(ss[j], roomId) && Listening(ss[j], roomId) <= Listening(ss[i], roomId)
    decreases j
  {
    hide Run, RoomLaws.Sound, Keyed, Legal, Write, Decide, Empty, Possible, RoomOver, Listening;
    RunShape(cfg, ss, cmds, times);
    if i < j {
      FinishedOnlyLoses(cfg, ss, cmds, times, i, j - 1, roomId);
      AlwaysKeyed(cfg, ss, cmds, times, j - 1);
      RoomLaws.AlwaysSound(cfg, ss, cmds, times, j - 1);
      StepOf(cfg, ss, cmds, times, j - 1);
      OverLosesOnly(ss[j - 1], Decide(cfg, ss[j - 1], cmds[j - 1], times[j - 1]), times[j - 1], roomId);
    }
  }

  /**
   So after the finish the reported peak is the true one exactly when the room was at its peak when it finished and
   nobody has gone since.
   */
  lemma PeakAfterFinishIff(cfg: ServiceConfig, ss: seq<State>, cmds: seq<Command>, times: seq<Time>, i: nat, j: nat,
                           roomId: string, now: Time)
    requires Run(cfg, ss, cmds, times) && i <= j < |ss| && RoomOver(ss[i], roomId)
    ensures StatsOf(ss[j], roomId, now).peakConcurrentListeners == TruePeak(ss, j, roomId)
       <==> TruePeak(ss, i, roomId) == Listening(ss[i], roomId) == Listening(ss[j], roomId)
  {
    hide Run, TruePeak, RoomOver, Listening, CountedStats;
    ReportedPeakIff(ss, j, roomId, now);
    TruePeakIsPeak(ss, i, roomId);
    FinishedOnlyLoses(cfg, ss, cmds, times, i, j, roomId);
    if TruePeak(ss, i, roomId) == Listening(ss[i], roomId) == Listening(ss[j], roomId) {
      forall k | i <= k <= j
        ensures Listening(ss[k], roomId) <= Listening(ss[j], roomId)
      {
        FinishedOnlyLoses(cfg, ss, cmds, times, i, k, roomId);
      }
    }
  }

  // ----- The report of a closed room -----

  lemma ReportSays(cfg: ServiceConfig, s: State, cmd: Command, now: Time)
    requires cmd.GenerateReport? && JobRegistry.HandlerSucceeds(s, cmd, now)
    ensures var s' := Apply(cfg, s, cmd, now);
            cmd.roomId in s'.reports && s'.reports[cmd.roomId].summary.peakConcurrentListeners == Listening(s, cmd.roomId)
  {
    hide TotalSeconds;
  }

  /** Once the close job has been reported complete, every later report of the room says that nobody listened. */
  lemma ClosedRoomReportsNoPeak(x: Settings, ws: seq<Shared>, steps: seq<Step>, i: nat, j: nat, roomId: string)
    requires SharedRun(x, ws, steps) && i <= j < |steps| && |ws| == |steps| + 1
    requires WorldLaws.ReportedDone(ws[i].core, Do.CloseKey(roomId))
    requires var cmd := WorldLaws.CommandOf(steps[j]);
             && cmd.Some? && cmd.value.GenerateReport? && cmd.value.roomId == roomId
             && JobRegistry.HandlerSucceeds(ws[j].voice, cmd.value, ws[j].core.clock)
    ensures roomId in ws[j + 1].voice.reports
    ensures ws[j + 1].voice.reports[roomId].summary.peakConcurrentListeners == 0
  {
    hide SharedRun, WorldLaws.ReportedDone, Do.CloseKey, JobRegistry.HandlerSucceeds, Apply, SharedNext, SharedEnabled;
    RoomClosedForGood(x, ws, steps, i, j, roomId);
    SharedRunAt(x, ws, steps);
    SharedVoiceHalf(x, ws[j], steps[j]);
    ReportSays(x.service, ws[j].voice, WorldLaws.CommandOf(steps[j]).value, ws[j].core.clock);
  }
}
