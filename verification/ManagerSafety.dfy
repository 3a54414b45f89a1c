/** One ending per recovery window, and no timer without an owner, over every interleaving. */
module ManagerSafety {
  import opened Common
  import opened ManagerState

  // ----- timers -----

  function Held(handle: Option<nat>): set<nat> { if handle.Some? then {handle.value} else {} }

  /** Every live timer is held by exactly one handle, and none runs while shut down. */
  predicate TimersOwned(s: State) {
    && s.live == Held(s.grace) + Held(s.recovery)
    && Held(s.grace) !! Held(s.recovery)
    && (forall t :: t in s.live ==> t < s.nextTimer)
    && (!s.job.Idle? ==> s.grace.None?)
    && (s.shuttingDown ==> s.live == {})
  }

  // ----- windows -----

  predicate JudgesNotAhead(s: State) {
    forall j :: j in s.judges ==> s.judges[j].generation <= s.generation && j < s.nextJudge
  }

  /** At most one thing stands for the current window. */
  predicate OneToken(s: State) {
    && !(s.recovery.Some? && s.deferred)
    && (forall j :: j in s.judges && s.judges[j].generation == s.generation ==>
          s.recovery.None? && !s.deferred
          && forall k :: k in s.judges && s.judges[k].generation == s.generation ==> k == j)
    && (s.generation == 0 ==> !Open(s))
  }

  function Closed(closings: seq<Closing>, generation: nat): nat {
    if closings == [] then 0
    else
      Closed(closings[..|closings| - 1], generation)
      + if closings[|closings| - 1].generation == generation then 1 else 0
  }

  /** Every past window has ended exactly once; the current one exactly when nothing stands for it. */
  predicate EndedOnce(s: State) {
    && (forall c :: c in s.closings ==> 1 <= c.generation <= s.generation)
    && (forall g :: 1 <= g < s.generation ==> Closed(s.closings, g) == 1)
    && (s.generation > 0 ==> Closed(s.closings, s.generation) == (if Open(s) then 0 else 1))
  }

  predicate HonestFailures(s: State) { forall c :: c in s.closings && c.ending.StillOffline? ==> !c.brokerDown }

  predicate Windows(s: State) { JudgesNotAhead(s) && OneToken(s) && EndedOnce(s) && HonestFailures(s) }

  predicate Inv(s: State) { TimersOwned(s) && Windows(s) }

  lemma {:induction false} NoneClosed(closings: seq<Closing>, generation: nat)
    requires forall c :: c in closings ==> c.generation != generation
    ensures Closed(closings, generation) == 0
  {
    if closings != [] { NoneClosed(closings[..|closings| - 1], generation); }
  }

  lemma CancelGraceOwned(s: State)
    requires TimersOwned(s)
    ensures TimersOwned(CancelGrace(s)) && CancelGrace(s).grace.None?
  {
  }

  lemma CancelRecoveryOwned(s: State)
    requires TimersOwned(s)
    ensures TimersOwned(CancelRecovery(s)) && CancelRecovery(s).recovery.None?
  {
  }

  lemma SetGraceOwned(s: State)
    requires TimersOwned(s) && s.grace.None? && s.job.Idle? && !s.shuttingDown
    ensures TimersOwned(SetGrace(s))
  {
  }

  lemma SetRecoveryOwned(s: State)
    requires TimersOwned(s) && s.recovery.None? && !s.shuttingDown
    ensures TimersOwned(SetRecovery(s))
  {
  }

  /** Ownership reads only the timers, the handles, the mutex and the shutdown flag. */
  lemma SameTimers(s: State, t: State)
    requires TimersOwned(s)
    requires t.live == s.live && t.grace == s.grace && t.recovery == s.recovery && t.nextTimer == s.nextTimer
    requires (t.job.Idle? || !s.job.Idle? || s.grace.None?) && (t.shuttingDown ==> s.shuttingDown)
    ensures TimersOwned(t)
  {
  }

  lemma ArmGraceOwned(s: State)
    requires TimersOwned(s)
    ensures TimersOwned(ArmOfflineGrace(s))
  {
    hide TimersOwned;
    if MayArmGrace(s) { SetGraceOwned(s); }
  }

  lemma ArmRecoveryOwned(s: State, origin: Origin)
    requires TimersOwned(s) && !s.shuttingDown
    ensures TimersOwned(ArmRecovery(s, origin)) && ArmRecovery(s, origin).job == s.job
            && ArmRecovery(s, origin).grace == s.grace
  {
    hide TimersOwned, Open;
    var ended := if Open(s) then Close(s, Superseded) else s;
    SameTimers(s, ended);
    CancelRecoveryOwned(ended);
    var armed := CancelRecovery(ended).(deferred := false, generation := s.generation + 1, activity := false,
      extended := false, origin := origin);
    SameTimers(CancelRecovery(ended), armed);
    SetRecoveryOwned(armed);
  }

  lemma AvailabilityOwned(s: State, payload: Availability)
    requires TimersOwned(s)
    ensures TimersOwned(HearAvailability(s, payload))
  {
    hide TimersOwned;
    if !s.shuttingDown {
      var heard := s.(availability := payload, activity := s.activity || !payload.Unknown?);
      SameTimers(s, heard);
      ArmGraceOwned(heard);
      CancelGraceOwned(heard);
      var calm := CancelGrace(heard);
      var closed := Close(calm, RepairSucceeded);
      SameTimers(calm, closed);
      CancelRecoveryOwned(closed);
      var judged := if s.recovery.Some? || s.deferred then CancelRecovery(closed).(deferred := false) else calm;
      SameTimers(if s.recovery.Some? || s.deferred then CancelRecovery(closed) else calm, judged);
      SameTimers(judged, judged.(reason := NoProblem));
    }
  }

  lemma MetaOwned(s: State, kind: MetaKind)
    requires TimersOwned(s)
    ensures TimersOwned(HearMeta(s, kind))
  {
    hide TimersOwned, MayArmGrace;
    if !s.shuttingDown {
      var heard := s.(activity := true);
      SameTimers(s, heard);
      CancelGraceOwned(heard);
      var calm := CancelGrace(heard);
      SameTimers(calm, Close(calm, LedgerFault));
      var closed := if s.recovery.Some? then Close(calm, LedgerFault) else calm;
      CancelRecoveryOwned(closed);
      SameTimers(CancelRecovery(closed), CancelRecovery(closed).(reason := RetainedLedger));
      var cleared := heard.(reason := NoProblem);
      SameTimers(heard, cleared);
      ArmGraceOwned(cleared);
    }
  }

  lemma DeferOwned(s: State)
    requires TimersOwned(s)
    ensures TimersOwned(Defer(s))
  {
    hide TimersOwned;
    CancelGraceOwned(s);
    SameTimers(CancelGrace(s), Defer(s));
  }

  lemma FiredGrace(s: State)
    requires TimersOwned(s) && s.grace.Some?
    ensures TimersOwned(s.(live := s.live - {s.grace.value}, grace := None))
  {
    CancelGraceOwned(s);
  }

  lemma FiredRecovery(s: State)
    requires TimersOwned(s) && s.recovery.Some?
    ensures TimersOwned(s.(live := s.live - {s.recovery.value}, recovery := None))
  {
    CancelRecoveryOwned(s);
  }

  lemma BeginRepairOwned(s: State, trigger: Trigger)
    requires TimersOwned(s)
    ensures TimersOwned(BeginRepair(s, trigger))
  {
    hide TimersOwned;
    CancelGraceOwned(s);
    if s.job.Idle? { SameTimers(CancelGrace(s), BeginRepair(s, trigger)); }
  }

  lemma GraceOwned(s: State, autoRepair: bool, coolingDown: bool)
    requires TimersOwned(s) && Enabled(s, GraceFires(autoRepair, coolingDown))
    ensures TimersOwned(FireGrace(s, autoRepair, coolingDown))
  {
    GraceMeansIdle(s);
    hide TimersOwned;
    var fired := s.(live := s.live - {s.grace.value}, grace := None);
    FiredGrace(s);
    if !s.shuttingDown { SetGraceOwned(fired); }
    SameTimers(fired, fired.(reason := OtherProblem));
    BeginRepairOwned(fired, Auto);
  }

  lemma GraceMeansIdle(s: State)
    requires TimersOwned(s) && s.grace.Some?
    ensures s.job.Idle?
  {
  }

  lemma RecoveryOwned(s: State)
    requires TimersOwned(s) && Enabled(s, RecoveryFires)
    ensures TimersOwned(FireRecovery(s))
  {
    hide TimersOwned;
    var fired := s.(live := s.live - {s.recovery.value}, recovery := None);
    FiredRecovery(s);
    SameTimers(fired, fired.(extended := true));
    if !s.shuttingDown { SetRecoveryOwned(fired.(extended := true)); }
    DeferOwned(fired);
    if Settled(s).Some? { SameTimers(fired, Close(fired, Settled(s).value)); }
    SameTimers(fired,
      fired.(judges := s.judges[s.nextJudge := Judge(s.generation, Waiting)], nextJudge := s.nextJudge + 1));
  }

  lemma JudgeOwned(s: State, j: nat)
    requires TimersOwned(s) && j in s.judges
    ensures TimersOwned(JudgeLock(s, j)) && TimersOwned(JudgeConclude(s, j)) && TimersOwned(JudgeCancel(s, j))
  {
    hide TimersOwned;
    var rest := WithoutJudge(s, j);
    SameTimers(s, rest);
    if Settled(s).Some? { SameTimers(rest, Close(rest, Settled(s).value)); }
    DeferOwned(rest);
    SameTimers(s, s.(judges := s.judges[j := s.judges[j].(stage := Collecting)]));
    CancelGraceOwned(rest);
    SameTimers(CancelGrace(rest), Close(CancelGrace(rest), StillOffline).(reason := OtherProblem));
    SameTimers(rest, Close(rest, Dropped));
  }

  lemma RepairOwned(s: State, result: ConnectResult, origin: Origin)
    requires TimersOwned(s) && !s.job.Idle?
    ensures TimersOwned(SkipStale(s)) && TimersOwned(FinishJob(s, origin))
    ensures s.job.Repair? ==> TimersOwned(ConnectRepair(s, result))
  {
    BusyMeansNoGrace(s);
    hide TimersOwned;
    var idle := s.(job := Idle);
    SameTimers(s, idle);
    SameTimers(idle, idle.(reason := NoProblem));
    SameTimers(idle, idle.(reason := OtherProblem));
    if !s.shuttingDown {
      SetGraceOwned(idle);
      SetGraceOwned(idle.(reason := OtherProblem));
      ArmRecoveryOwned(s, origin);
      SameTimers(ArmRecovery(s, origin), ArmRecovery(s, origin).(job := Idle));
    }
    if s.job.Repair? && result.Connected? { SameTimers(s, ConnectRepair(s, result)); }
  }

  lemma BusyMeansNoGrace(s: State)
    requires TimersOwned(s) && !s.job.Idle?
    ensures s.grace.None?
  {
  }

  lemma ReconnectOwned(s: State)
    requires TimersOwned(s)
    ensures TimersOwned(Reconnect(s))
  {
    hide TimersOwned, MayArmGrace;
    ArmGraceOwned(s);
    if !s.shuttingDown { ArmRecoveryOwned(s, s.origin); }
    SameTimers(s, Close(s, Dropped).(deferred := false));
  }

  lemma ShutdownOwned(s: State)
    requires TimersOwned(s)
    ensures TimersOwned(ShutDownNow(s)) && ShutDownNow(s).live == {}
  {
  }

  lemma UpdateOwned(s: State)
    requires TimersOwned(s) && s.job.Idle?
    ensures TimersOwned(CancelGrace(s).(job := Update))
  {
    hide TimersOwned;
    CancelGraceOwned(s);
    SameTimers(CancelGrace(s), CancelGrace(s).(job := Update));
  }

  /** Timers stay owned through every event. */
  lemma TimersStep(s: State, e: Event)
    requires TimersOwned(s) && Enabled(s, e)
    ensures TimersOwned(Next(s, e))
  {
    hide TimersOwned, HearAvailability, HearMeta, Reconnect, FireGrace, FireRecovery, JudgeLock, JudgeConclude,
         JudgeCancel, ConnectRepair, SkipStale, FinishJob, ShutDownNow, Warranted;
    match e
    case Shutdown => ShutdownOwned(s);
    case AvailabilityMessage(payload) => AvailabilityOwned(s, payload);
    case MetaMessage(kind) => MetaOwned(s, kind);
    case BrokerReconnected => ReconnectOwned(s);
    case GraceFires(autoRepair, coolingDown) => GraceOwned(s, autoRepair, coolingDown);
    case RecoveryFires => RecoveryOwned(s);
    case JudgeLocks(j) => JudgeOwned(s, j);
    case JudgeConcludes(j) => JudgeOwned(s, j);
    case JudgeCancelled(j) => JudgeOwned(s, j);
    case RepairAsked => BeginRepairOwned(s, Manual);
    case UpdateAsked => if s.job.Idle? { UpdateOwned(s); }
    case RepairConnects(result) => RepairOwned(s, result, AfterRepair);
    case RepairEnds(ok) =>
      RepairOwned(s, Connected, AfterRepair);
      SameTimers(s, s.(job := Idle, reason := OtherProblem));
    case UpdateEnds(outcome) =>
      RepairOwned(s, Connected, AfterUpdate);
      SameTimers(s, s.(job := Idle, reason := OtherProblem));
      SameTimers(s, s.(job := Idle));
    case RepairLocks => RepairOwned(s, Connected, AfterRepair); SameTimers(s, s.(job := s.job.(stage := Connecting)));
    case RepairRevalidates => RepairOwned(s, Connected, AfterRepair);
    case _ => SameTimers(s, Next(s, e));
  }

  // ----- windows, effect by effect -----

  lemma SameWindow(s: State, t: State)
    requires Windows(s)
    requires t.recovery.Some? == s.recovery.Some? && t.deferred == s.deferred && t.judges == s.judges
             && t.nextJudge >= s.nextJudge
    requires t.generation == s.generation && t.closings == s.closings
    ensures Windows(t)
  {
    assert Judging(t) <==> Judging(s);
  }

  /** The one thing that stood for the window is gone, and its ending is recorded. */
  lemma EndWindow(s: State, t: State, ending: Ending, brokerDown: bool)
    requires Windows(s) && Open(s)
    requires t.recovery.None? && !t.deferred && !Judging(t) && t.generation == s.generation
    requires forall j :: j in t.judges ==> j in s.judges && t.judges[j].generation == s.judges[j].generation
    requires t.nextJudge >= s.nextJudge
    requires t.closings == s.closings + [Closing(s.generation, ending, brokerDown)]
             && (ending.StillOffline? ==> !brokerDown)
    ensures Windows(t)
  {
    forall g ensures Closed(t.closings, g) == Closed(s.closings, g) + (if s.generation == g then 1 else 0) {
      assert t.closings[..|t.closings| - 1] == s.closings;
    }
  }

  /** The window goes on, with something else standing for it. */
  lemma MoveToken(s: State, t: State)
    requires Windows(s) && Open(s) && Open(t) && OneToken(t) && JudgesNotAhead(t)
    requires t.generation == s.generation && t.closings == s.closings
    ensures Windows(t)
  {
  }

  /** A judge of an earlier window may change or vanish freely. */
  lemma StaleJudge(s: State, j: nat, t: State)
    requires Windows(s) && j in s.judges && s.judges[j].generation != s.generation
    requires t == s.(judges := t.judges) && t.judges == s.judges - {j}
    ensures Windows(t)
  {
    if Judging(s) {
      var k :| k in s.judges && s.judges[k].generation == s.generation;
      assert k in t.judges;
    }
    assert Judging(t) <==> Judging(s);
  }

  lemma ArmWindow(s: State, t: State)
    requires Windows(s)
    requires t.recovery.Some? && !t.deferred && t.judges == s.judges && t.nextJudge == s.nextJudge
             && t.generation == s.generation + 1
    requires t.closings == if Open(s) then s.closings + [Closing(s.generation, Superseded, BrokerDown(s))]
             else s.closings
    ensures Windows(t)
  {
    forall g ensures Closed(t.closings, g) == Closed(s.closings, g) + (if Open(s) && s.generation == g then 1 else 0) {
      if Open(s) { assert t.closings[..|t.closings| - 1] == s.closings; }
    }
    NoneClosed(t.closings, t.generation);
  }

  lemma ArmedWindow(s: State, origin: Origin)
    requires Windows(s)
    ensures Windows(ArmRecovery(s, origin))
  {
    hide Windows, Open;
    ArmWindow(s, ArmRecovery(s, origin));
  }

  lemma TokenOf(s: State)
    requires Windows(s)
    ensures s.recovery.Some? || s.deferred ==> Open(s) && !Judging(s)
    ensures !(s.recovery.Some? && s.deferred)
  {
  }

  lemma TokenJudge(s: State, j: nat)
    requires Windows(s) && j in s.judges && s.judges[j].generation == s.generation
    ensures Open(s) && s.recovery.None? && !s.deferred && !Judging(WithoutJudge(s, j))
  {
  }

  lemma DeferMoves(s: State, t: State)
    requires Windows(s) && Open(s) && t.recovery.None? && !t.deferred && !Judging(t)
    requires t.generation == s.generation && t.closings == s.closings && t.nextJudge == s.nextJudge
    requires forall j :: j in t.judges ==> j in s.judges && t.judges[j] == s.judges[j]
    ensures Windows(Defer(t))
  {
    var u := Defer(t);
    assert !Judging(u);
    MoveToken(s, u);
  }

  lemma AvailabilityWindow(s: State, payload: Availability)
    requires Windows(s)
    ensures Windows(HearAvailability(s, payload))
  {
    hide Windows, Open, Judging, MayArmGrace;
    var t := HearAvailability(s, payload);
    TokenOf(s);
    if !s.shuttingDown && payload.Online? && (s.recovery.Some? || s.deferred) {
      SameJudges(s, t);
      EndWindow(s, t, RepairSucceeded, BrokerDown(s));
    } else {
      SameWindow(s, t);
    }
  }

  lemma SameJudges(s: State, t: State)
    requires t.judges == s.judges && t.generation == s.generation
    ensures Judging(t) == Judging(s)
  {
  }

  lemma MetaWindow(s: State, kind: MetaKind)
    requires Windows(s)
    ensures Windows(HearMeta(s, kind))
  {
    hide Windows, Open, Judging, MayArmGrace;
    var t := HearMeta(s, kind);
    TokenOf(s);
    if !s.shuttingDown && kind.Degraded? && s.recovery.Some? {
      SameJudges(s, t);
      EndWindow(s, t, LedgerFault, BrokerDown(s));
    } else {
      SameWindow(s, t);
    }
  }

  lemma ShutdownWindow(s: State)
    requires Windows(s)
    ensures Windows(ShutDownNow(s))
  {
    hide Windows, Open, Judging;
    var t := ShutDownNow(s);
    TokenOf(s);
    if s.recovery.Some? {
      SameJudges(s, t);
      EndWindow(s, t, ShutDown, BrokerDown(s));
    } else {
      SameWindow(s, t);
    }
  }

  lemma ReconnectWindow(s: State)
    requires Windows(s)
    ensures Windows(Reconnect(s))
  {
    hide Windows, Open, Judging, MayArmGrace;
    var t := Reconnect(s);
    TokenOf(s);
    if !s.deferred {
      SameWindow(s, t);
    } else if !s.shuttingDown && s.job.Idle? {
      ArmedWindow(s, s.origin);
    } else {
      SameJudges(s, t);
      EndWindow(s, t, Dropped, BrokerDown(s));
    }
  }

  lemma RecoveryWindow(s: State)
    requires Windows(s) && Enabled(s, RecoveryFires)
    ensures Windows(FireRecovery(s))
  {
    hide Windows, Open, Judging;
    var t := FireRecovery(s);
    TokenOf(s);
    var fired := s.(live := s.live - {s.recovery.value}, recovery := None);
    SameJudges(s, fired);
    if Settled(s).Some? {
      SameJudges(s, t);
      EndWindow(s, t, Settled(s).value, BrokerDown(s));
    } else if BrokerDown(s) {
      DeferMoves(s, fired);
    } else if s.activity && !s.extended {
      SameWindow(s, t);
    } else {
      JudgeStarts(s, t);
    }
  }

  lemma JudgeStarts(s: State, t: State)
    requires Windows(s) && s.recovery.Some? && t.recovery.None? && t.deferred == s.deferred
             && t.generation == s.generation && t.closings == s.closings
    requires t.judges == s.judges[s.nextJudge := Judge(s.generation, Waiting)] && t.nextJudge == s.nextJudge + 1
    ensures Windows(t)
  {
    assert t.judges[s.nextJudge].generation == t.generation;
    MoveToken(s, t);
  }

  lemma JudgeWindow(s: State, j: nat)
    requires Windows(s) && j in s.judges
    ensures Windows(JudgeLock(s, j)) && Windows(JudgeConclude(s, j)) && Windows(JudgeCancel(s, j))
  {
    hide Windows, Open, Judging;
    var rest := WithoutJudge(s, j);
    if s.judges[j].generation != s.generation {
      StaleJudge(s, j, rest);
    } else {
      TokenJudge(s, j);
      if Settled(s).Some? {
        SameJudges(rest, Close(rest, Settled(s).value));
        EndWindow(s, Close(rest, Settled(s).value), Settled(s).value, BrokerDown(s));
      }
      DeferMoves(s, rest);
      JudgeCollects(s, j);
      var failed := JudgeFails(rest);
      SameJudges(rest, failed);
      if !BrokerDown(s) { EndWindow(s, failed, StillOffline, BrokerDown(s)); }
      SameJudges(rest, Close(rest, Dropped));
      EndWindow(s, Close(rest, Dropped), Dropped, BrokerDown(s));
    }
  }

  function JudgeFails(rest: State): State { Close(CancelGrace(rest), StillOffline).(reason := OtherProblem) }

  lemma JudgeCollects(s: State, j: nat)
    requires Windows(s) && j in s.judges && s.judges[j].generation == s.generation
    ensures Windows(s.(judges := s.judges[j := s.judges[j].(stage := Collecting)]))
  {
    var t := s.(judges := s.judges[j := s.judges[j].(stage := Collecting)]);
    assert t.judges[j].generation == t.generation;
    MoveToken(s, t);
  }

  lemma FinishWindow(s: State, origin: Origin)
    requires Windows(s)
    ensures Windows(FinishJob(s, origin))
  {
    hide Windows, ArmRecovery;
    if s.shuttingDown || s.reason.RetainedLedger? { SameWindow(s, s.(job := Idle)); }
    else {
      ArmedWindow(s, origin);
      SameWindow(ArmRecovery(s, origin), ArmRecovery(s, origin).(job := Idle));
    }
  }

  /** Events that never touch a recovery window. */
  predicate Quiet(e: Event) {
    e.Setup? || e.BrokerStatus? || e.GraceFires? || e.RepairAsked? || e.RepairLocks? || e.RepairConnects?
      || e.RepairRevalidates?
    || e.RepairCancelled? || e.UpdateAsked?
  }

  predicate SameWindowParts(s: State, t: State) {
    && t.recovery == s.recovery && t.deferred == s.deferred && t.judges == s.judges && t.nextJudge == s.nextJudge
    && t.generation == s.generation && t.closings == s.closings && t.shuttingDown == s.shuttingDown
  }

  lemma GraceIsQuiet(s: State, autoRepair: bool, coolingDown: bool)
    requires s.grace.Some?
    ensures SameWindowParts(s, FireGrace(s, autoRepair, coolingDown))
  {
  }

  lemma BeginIsQuiet(s: State, trigger: Trigger)
    ensures SameWindowParts(s, BeginRepair(s, trigger)) && SameWindowParts(s, SkipStale(s))
  {
  }

  lemma ConnectIsQuiet(s: State, result: ConnectResult)
    requires s.job.Repair?
    ensures SameWindowParts(s, ConnectRepair(s, result))
  {
  }

  lemma RepairIsQuiet(s: State, result: ConnectResult, trigger: Trigger)
    ensures SameWindowParts(s, SkipStale(s)) && SameWindowParts(s, BeginRepair(s, trigger))
    ensures s.job.Repair? ==> SameWindowParts(s, ConnectRepair(s, result))
  {
    hide SkipStale, BeginRepair, ConnectRepair, SameWindowParts;
    BeginIsQuiet(s, trigger);
    if s.job.Repair? { ConnectIsQuiet(s, result); }
  }

  lemma QuietStep(s: State, e: Event)
    requires Enabled(s, e) && Quiet(e)
    ensures SameWindowParts(s, Next(s, e).(shuttingDown := s.shuttingDown))
  {
    hide Warranted, HearAvailability, HearMeta, Reconnect, FireRecovery, JudgeLock, JudgeConclude, JudgeCancel,
         FinishJob, ShutDownNow, SkipStale, FireGrace, ConnectRepair, BeginRepair;
    match e
    case GraceFires(autoRepair, coolingDown) => GraceIsQuiet(s, autoRepair, coolingDown);
    case RepairConnects(result) => RepairIsQuiet(s, result, Manual);
    case _ => RepairIsQuiet(s, Connected, Manual);
  }

  lemma WindowsStep(s: State, e: Event)
    requires Windows(s) && Enabled(s, e)
    ensures Windows(Next(s, e))
  {
    hide Windows, HearAvailability, HearMeta, Reconnect, FireRecovery, JudgeLock, JudgeConclude, JudgeCancel,
         FinishJob, ShutDownNow, Warranted, SkipStale, FireGrace, ConnectRepair, BeginRepair;
    match e
    case Shutdown => ShutdownWindow(s);
    case AvailabilityMessage(payload) => AvailabilityWindow(s, payload);
    case MetaMessage(kind) => MetaWindow(s, kind);
    case BrokerReconnected => ReconnectWindow(s);
    case RecoveryFires => RecoveryWindow(s);
    case JudgeLocks(j) => JudgeWindow(s, j);
    case JudgeConcludes(j) => JudgeWindow(s, j);
    case JudgeCancelled(j) => JudgeWindow(s, j);
    case RepairEnds(ok) => FinishWindow(s, AfterRepair); SameWindow(s, s.(job := Idle, reason := OtherProblem));
    case UpdateEnds(outcome) =>
      FinishWindow(s, AfterUpdate);
      SameWindow(s, s.(job := Idle, reason := OtherProblem));
      SameWindow(s, s.(job := Idle));
    case _ => QuietStep(s, e); SameWindow(s, Next(s, e));
  }

  // ----- over whole runs -----

  lemma {:induction false} RunKeepsInv(states: seq<State>, i: nat)
    requires Run(states) && i < |states|
    ensures Inv(states[i])
  {
    hide TimersOwned, Windows, Enabled, Next;
    if i == 0 {
      StartIsFine();
    } else {
      RunKeepsInv(states, i - 1);
      assert Steps(states[i - 1], states[i]);
      var e :| Enabled(states[i - 1], e) && states[i] == Next(states[i - 1], e);
      TimersStep(states[i - 1], e);
      WindowsStep(states[i - 1], e);
    }
  }

  lemma StartIsFine()
    ensures Inv(Start)
  {
  }

  /** Every recovery window ends exactly once: at most one verdict, no failure for a superseded window,
      and none while the broker is known to be down. */
  lemma OneVerdictPerWindow(states: seq<State>, i: nat, g: nat)
    requires Run(states) && i < |states| && 1 <= g <= states[i].generation
    ensures Closed(states[i].closings, g) == (if g == states[i].generation && Open(states[i]) then 0 else 1)
    ensures forall c :: c in states[i].closings && c.ending.StillOffline? ==> !c.brokerDown
  {
    hide TimersOwned, Open;
    RunKeepsInv(states, i);
  }

  /** At most one ending is recorded by a stretch, and it is about the window current when it began. */
  ghost predicate ClosesCurrent(s: State, t: State) {
    t.closings == s.closings
      || (Open(s) && exists ending, down :: t.closings == s.closings + [Closing(s.generation, ending, down)])
  }

  lemma Closes(s: State, t: State, ending: Ending, down: bool)
    requires Open(s) && t.closings == s.closings + [Closing(s.generation, ending, down)]
    ensures ClosesCurrent(s, t)
  {
  }

  lemma FinishCloses(s: State, origin: Origin)
    ensures ClosesCurrent(s, FinishJob(s, origin)) && ClosesCurrent(s, ArmRecovery(s, origin))
  {
    hide Open;
    if Open(s) { Closes(s, ArmRecovery(s, origin), Superseded, BrokerDown(s)); }
  }

  lemma JudgeCloses(s: State, j: nat)
    requires Windows(s) && j in s.judges
    ensures ClosesCurrent(s, JudgeLock(s, j)) && ClosesCurrent(s, JudgeConclude(s, j))
            && ClosesCurrent(s, JudgeCancel(s, j))
  {
    hide Windows, Open, Judging, ClosesCurrent;
    var rest := WithoutJudge(s, j);
    Unclosed(s, rest);
    Unclosed(s, Defer(rest));
    Unclosed(s, JudgeLock(s, j).(closings := s.closings));
    if s.judges[j].generation == s.generation {
      TokenJudge(s, j);
      if Settled(s).Some? { Closes(s, Close(rest, Settled(s).value), Settled(s).value, BrokerDown(s)); }
      Closes(s, JudgeFails(rest), StillOffline, BrokerDown(s));
      Closes(s, Close(rest, Dropped), Dropped, BrokerDown(s));
    }
  }

  lemma Unclosed(s: State, t: State)
    requires t.closings == s.closings
    ensures ClosesCurrent(s, t)
  {
  }

  lemma AvailabilityCloses(s: State, payload: Availability)
    requires Windows(s)
    ensures ClosesCurrent(s, HearAvailability(s, payload))
  {
    hide Windows, Open, Judging, ClosesCurrent, MayArmGrace;
    TokenOf(s);
    var t := HearAvailability(s, payload);
    if t.closings == s.closings { Unclosed(s, t); } else { Closes(s, t, RepairSucceeded, BrokerDown(s)); }
  }

  lemma MetaCloses(s: State, kind: MetaKind)
    requires Windows(s)
    ensures ClosesCurrent(s, HearMeta(s, kind))
  {
    hide Windows, Open, Judging, ClosesCurrent, MayArmGrace;
    TokenOf(s);
    var t := HearMeta(s, kind);
    if t.closings == s.closings { Unclosed(s, t); } else { Closes(s, t, LedgerFault, BrokerDown(s)); }
  }

  lemma ShutdownCloses(s: State)
    requires Windows(s)
    ensures ClosesCurrent(s, ShutDownNow(s))
  {
    hide Windows, Open, Judging, ClosesCurrent;
    TokenOf(s);
    var t := ShutDownNow(s);
    if t.closings == s.closings { Unclosed(s, t); } else { Closes(s, t, ShutDown, BrokerDown(s)); }
  }

  lemma FiredCloses(s: State)
    requires Windows(s)
    ensures ClosesCurrent(s, Reconnect(s)) && (s.recovery.Some? ==> ClosesCurrent(s, FireRecovery(s)))
  {
    hide Windows, Open, Judging, ClosesCurrent, MayArmGrace;
    TokenOf(s);
    FinishCloses(s, s.origin);
    var r := Reconnect(s);
    if r.closings == s.closings {
      Unclosed(s, r);
    } else if r.generation == s.generation {
      Closes(s, r, Dropped, BrokerDown(s));
    }
    if s.recovery.Some? {
      var f := FireRecovery(s);
      if f.closings == s.closings { Unclosed(s, f); } else { Closes(s, f, Settled(s).value, BrokerDown(s)); }
    }
  }

  lemma StepCloses(s: State, e: Event)
    requires Windows(s) && Enabled(s, e)
    ensures ClosesCurrent(s, Next(s, e))
  {
    hide Windows, ClosesCurrent, HearAvailability, HearMeta, Reconnect, FireRecovery, JudgeLock, JudgeConclude,
         JudgeCancel, FinishJob, ShutDownNow, Warranted, SkipStale, FireGrace, ConnectRepair, BeginRepair,
         ArmRecovery;
    match e
    case Shutdown => ShutdownCloses(s);
    case AvailabilityMessage(payload) => AvailabilityCloses(s, payload);
    case MetaMessage(kind) => MetaCloses(s, kind);
    case BrokerReconnected => FiredCloses(s);
    case RecoveryFires => FiredCloses(s);
    case JudgeLocks(j) => JudgeCloses(s, j);
    case JudgeConcludes(j) => JudgeCloses(s, j);
    case JudgeCancelled(j) => JudgeCloses(s, j);
    case RepairEnds(ok) => FinishCloses(s, AfterRepair); Unclosed(s, s.(job := Idle, reason := OtherProblem));
    case UpdateEnds(outcome) =>
      FinishCloses(s, AfterUpdate);
      Unclosed(s, s.(job := Idle, reason := OtherProblem));
      Unclosed(s, s.(job := Idle));
    case _ => QuietStep(s, e); Unclosed(s, Next(s, e));
  }

  /** A verdict is always about the window that was current, and still open, when it was issued. */
  lemma VerdictsAreCurrent(states: seq<State>, i: nat)
    requires Run(states) && i + 1 < |states|
    ensures ClosesCurrent(states[i], states[i + 1])
  {
    hide TimersOwned, Windows, ClosesCurrent, Next, Enabled;
    RunKeepsInv(states, i);
    var s := states[i];
    assert Steps(s, states[i + 1]);
    var e :| Enabled(s, e) && states[i + 1] == Next(s, e);
    StepCloses(s, e);
  }

  /** Every live timer has exactly one handle, in every reachable state. */
  lemma TimersAreHeld(states: seq<State>, i: nat)
    requires Run(states) && i < |states|
    ensures states[i].live == Held(states[i].grace) + Held(states[i].recovery)
            && Held(states[i].grace) !! Held(states[i].recovery)
  {
    hide Windows;
    RunKeepsInv(states, i);
  }

  /** Some event other than setup. */
  ghost predicate StepsDown(s: State, t: State) { exists e: Event :: !e.Setup? && Enabled(s, e) && t == Next(s, e) }

  lemma OnlySetupLifts(s: State, e: Event)
    requires Enabled(s, e) && s.shuttingDown && !e.Setup?
    ensures Next(s, e).shuttingDown
  {
    hide Open, Judging, MayArmGrace, Warranted;
  }

  /** After a shutdown no timer is live, and none can be armed, until setup runs again. */
  lemma {:induction false} QuietAfterShutdown(states: seq<State>, i: nat, j: nat)
    requires Run(states) && i <= j < |states| && states[i].shuttingDown
    requires forall k :: i < k <= j ==> StepsDown(states[k - 1], states[k])
    ensures states[j].shuttingDown && states[j].live == {}
  {
    hide Windows, Enabled, Next;
    RunKeepsInv(states, j);
    if i < j {
      QuietAfterShutdown(states, i, j - 1);
      var e: Event :| !e.Setup? && Enabled(states[j - 1], e) && states[j] == Next(states[j - 1], e);
      OnlySetupLifts(states[j - 1], e);
    }
  }
}
