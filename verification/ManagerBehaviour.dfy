/**
 * The same machine read by what it does instead of by what happens: for each thing an observer can see of a
 * panel's manager, exactly which event brings it about, and when.
 */
module ManagerBehaviour {
  import opened Common
  import opened ManagerState
  import opened ManagerSafety

  /** Nothing decides the window by itself: no shutdown, no ledger fault, and the bridge was not heard. */
  predicate Undecided(s: State) {
    !s.shuttingDown && s.reason != RetainedLedger && s.availability != Online
  }

  /** The panel is offline, or was never heard, for all the broker can tell. */
  predicate Missing(s: State) {
    !s.shuttingDown && (s.availability == Offline || s.availability == Unknown) && s.broker != Some(false)
  }

  /** The window is looked at: its timer fires, or its own judge goes on. */
  predicate LooksAtWindow(s: State, e: Event) {
    match e
    case RecoveryFires => true
    case JudgeLocks(j) => j in s.judges && s.judges[j].generation == s.generation
    case JudgeConcludes(j) => j in s.judges && s.judges[j].generation == s.generation
    case _ => false
  }

  /** An automatic repair finds that there is no reason for it any more. */
  predicate FindsStale(s: State, e: Event) {
    (e.RepairLocks? || e.RepairRevalidates?) && s.job.Repair? && s.job.trigger == Auto && !Missing(s)
  }

  // ----- repairs -----

  /** The grace period ran out over a panel that is still missing, without the ledger fault. */
  predicate GraceRunsOut(s: State, e: Event) { e.GraceFires? && Missing(s) && s.reason != RetainedLedger }

  /** What holds the panel's mutex after an event. */
  function JobAfter(s: State, e: Event): Job {
    match e
    case GraceFires(autoRepair, coolingDown) =>
      if GraceRunsOut(s, e) && autoRepair && !coolingDown then Repair(Auto, Queued) else s.job
    case RepairAsked => if s.job == Idle then Repair(Manual, Queued) else s.job
    case UpdateAsked => if s.job == Idle then Update else s.job
    case RepairLocks => if s.job.Repair? && !FindsStale(s, e) then s.job.(stage := Connecting) else Idle
    case RepairConnects(result) => if s.job.Repair? && result == Connected then s.job.(stage := Working) else Idle
    case RepairRevalidates => if FindsStale(s, e) then Idle else s.job
    case RepairEnds(_) => Idle
    case RepairCancelled => Idle
    case UpdateEnds(_) => Idle
    case _ => s.job
  }

  // ----- the problem shown -----

  predicate RaisesProblem(s: State, e: Event) {
    match e
    case GraceFires(autoRepair, coolingDown) => GraceRunsOut(s, e) && (!autoRepair || coolingDown)
    case JudgeConcludes(_) => LooksAtWindow(s, e) && Undecided(s) && s.broker != Some(false)
    case RepairConnects(result) => result != Connected
    case RepairEnds(ok) => !ok
    case UpdateEnds(outcome) => outcome == Failed
    case _ => false
  }

  /** Only the bridge being heard online clears a problem, and only healthy metadata clears the ledger fault. */
  predicate ClearsProblem(s: State, e: Event) {
    || (e == AvailabilityMessage(Online) && !s.shuttingDown && s.reason != RetainedLedger)
    || (e == MetaMessage(Healthy) && !s.shuttingDown && s.reason == RetainedLedger)
    || (FindsStale(s, e) && s.availability == Online && s.reason != RetainedLedger)
  }

  function ReasonAfter(s: State, e: Event): Reason {
    if RaisesProblem(s, e) then OtherProblem
    else if e == MetaMessage(Degraded) && !s.shuttingDown then RetainedLedger
    else if ClearsProblem(s, e) then NoProblem
    else s.reason
  }

  // ----- the grace timer -----

  /** Nothing else looks after the panel. */
  predicate Unattended(s: State) {
    !s.shuttingDown && s.grace.None? && s.recovery.None? && !s.deferred && s.job == Idle
  }

  predicate StartsGrace(s: State, e: Event) {
    match e
    case AvailabilityMessage(payload) => payload == Offline && Unattended(s) && s.reason != RetainedLedger
    case MetaMessage(kind) =>
      kind == Healthy && Unattended(s) && s.availability == Offline && s.reason == RetainedLedger
    case BrokerReconnected => Unattended(s) && s.availability == Offline && s.reason != RetainedLedger
    case GraceFires(_, _) =>
      !s.shuttingDown && s.reason != RetainedLedger && s.availability == Unknown && s.broker == Some(false)
    case RepairConnects(result) => result == Unreachable && !s.shuttingDown && s.availability != Unknown
    case _ => FindsStale(s, e) && s.availability == Unknown && !s.shuttingDown
  }

  predicate StopsGrace(s: State, e: Event) {
    match e
    case GraceFires(_, _) => true
    case Shutdown => true
    case AvailabilityMessage(payload) => payload == Online && !s.shuttingDown
    case MetaMessage(kind) => kind == Degraded && !s.shuttingDown
    case RepairAsked => s.job == Idle
    case UpdateAsked => s.job == Idle
    case JudgeConcludes(_) => LooksAtWindow(s, e) && Undecided(s)
    case _ => LooksAtWindow(s, e) && Undecided(s) && s.broker == Some(false)
  }

  /** The grace timer is started afresh, stopped, or left alone. */
  function GraceAfter(s: State, e: Event): Option<nat> {
    if StartsGrace(s, e) then Some(s.nextTimer) else if StopsGrace(s, e) then None else s.grace
  }

  // ----- recovery windows -----

  /** A window opens after a job that did its work, and after an outage. */
  predicate OpensWindow(s: State, e: Event) {
    match e
    case RepairEnds(ok) => ok && !s.shuttingDown && s.reason != RetainedLedger
    case UpdateEnds(outcome) => outcome == Updated && !s.shuttingDown && s.reason != RetainedLedger
    case BrokerReconnected => s.deferred && !s.shuttingDown && s.job == Idle
    case _ => false
  }

  /** Its timer is renewed once at most, for a panel that was heard. */
  predicate ExtendsWindow(s: State, e: Event) {
    e == RecoveryFires && Undecided(s) && s.broker != Some(false) && s.activity && !s.extended
  }

  function RecoveryAfter(s: State, e: Event): Option<nat> {
    if OpensWindow(s, e) || ExtendsWindow(s, e) then Some(s.nextTimer)
    else if e == RecoveryFires || e == Shutdown
      || (!s.shuttingDown && (e == AvailabilityMessage(Online) || e == MetaMessage(Degraded)))
    then None
    else s.recovery
  }

  function OriginAfter(s: State, e: Event): Origin {
    if !OpensWindow(s, e) || e == BrokerReconnected then s.origin
    else if e.RepairEnds? then AfterRepair
    else AfterUpdate
  }

  /** A verdict waits for the broker exactly when it falls due while the broker is down. */
  predicate DeferredAfter(s: State, e: Event) {
    || (LooksAtWindow(s, e) && Undecided(s) && s.broker == Some(false))
    || (s.deferred && !OpensWindow(s, e) && e != BrokerReconnected
        && !(e == AvailabilityMessage(Online) && !s.shuttingDown))
  }

  /** A judge is called when an undecided window runs out, silent or extended before, with the broker up; it
      collects once, under the same conditions, and is gone after any other of its own events. */
  function JudgesAfter(s: State, e: Event): map<nat, Judge> {
    match e
    case RecoveryFires =>
      if Undecided(s) && s.broker != Some(false) && (!s.activity || s.extended)
      then s.judges[s.nextJudge := Judge(s.generation, Waiting)] else s.judges
    case JudgeLocks(j) =>
      if LooksAtWindow(s, e) && Undecided(s) && s.broker != Some(false)
      then s.judges[j := Judge(s.generation, Collecting)] else s.judges - {j}
    case JudgeConcludes(j) => s.judges - {j}
    case JudgeCancelled(j) => s.judges - {j}
    case _ => s.judges
  }

  /** How the current window ends, if it does. */
  function EndsWindow(s: State, e: Event): Option<Ending> {
    if LooksAtWindow(s, e) then
      if s.shuttingDown then Some(ShutDown)
      else if s.reason == RetainedLedger then Some(LedgerFault)
      else if s.availability == Online then Some(SeenOnline)
      else if s.broker != Some(false) && e.JudgeConcludes? then Some(StillOffline)
      else None
    else
      match e
      case Shutdown => if s.recovery.Some? then Some(ShutDown) else None
      case AvailabilityMessage(payload) =>
        if payload == Online && !s.shuttingDown && (s.recovery.Some? || s.deferred) then Some(RepairSucceeded) else None
      case MetaMessage(kind) =>
        if kind == Degraded && !s.shuttingDown && s.recovery.Some? then Some(LedgerFault) else None
      case JudgeCancelled(j) => if j in s.judges && s.judges[j].generation == s.generation then Some(Dropped) else None
      case BrokerReconnected => if !s.deferred then None else Some(if OpensWindow(s, e) then Superseded else Dropped)
      case _ => if OpensWindow(s, e) && Open(s) then Some(Superseded) else None
  }

  function ClosingsAfter(s: State, e: Event): seq<Closing> {
    match EndsWindow(s, e)
    case Some(ending) => s.closings + [Closing(s.generation, ending, s.broker == Some(false))]
    case None => s.closings
  }

  // ----- all of it -----

  predicate ActivityAfter(s: State, e: Event) {
    && !OpensWindow(s, e)
    && (s.activity || (!s.shuttingDown && (e.MetaMessage? || (e.AvailabilityMessage? && e.payload != Unknown))))
  }

  /** Everything an event does, thing by thing. */
  ghost predicate Moves(s: State, e: Event, t: State) {
    && t.shuttingDown == (e == Shutdown || (s.shuttingDown && e != Setup))
    && t.broker == (if e.BrokerStatus? then e.up else s.broker)
    && t.availability == (if e.AvailabilityMessage? && !s.shuttingDown then e.payload else s.availability)
    && t.activity == ActivityAfter(s, e)
    && t.job == JobAfter(s, e)
    && t.reason == ReasonAfter(s, e)
    && t.grace == GraceAfter(s, e)
    && t.generation == s.generation + (if OpensWindow(s, e) then 1 else 0)
    && t.extended == (!OpensWindow(s, e) && (s.extended || ExtendsWindow(s, e)))
    && t.origin == OriginAfter(s, e)
    && t.recovery == RecoveryAfter(s, e)
    && t.deferred == DeferredAfter(s, e)
    && t.judges == JudgesAfter(s, e)
    && t.closings == ClosingsAfter(s, e)
  }

  // ----- one event at a time -----

  lemma GraceCancelled(s: State)
    ensures CancelGrace(s) == s.(live := CancelGrace(s).live, grace := None)
  {
  }

  lemma RecoveryCancelled(s: State)
    ensures CancelRecovery(s) == s.(live := CancelRecovery(s).live, recovery := None)
  {
  }

  lemma WindowArmed(s: State, origin: Origin)
    ensures ArmRecovery(s, origin) ==
              s.(live := ArmRecovery(s, origin).live, recovery := Some(s.nextTimer), nextTimer := s.nextTimer + 1,
                 deferred := false, generation := s.generation + 1, activity := false, extended := false,
                 origin := origin, closings := if Open(s) then Close(s, Superseded).closings else s.closings)
  {
    hide Open;
  }

  lemma ShutdownMoves(s: State)
    requires (s.job.Idle? || s.grace.None?) && Enabled(s, Shutdown)
    ensures Moves(s, Shutdown, Next(s, Shutdown))
  {
    hide HearAvailability, HearMeta, Reconnect, FireGrace, FireRecovery, JudgeLock, JudgeConclude, JudgeCancel,
         BeginRepair, SkipStale, ConnectRepair, FinishJob, CancelGrace, CancelRecovery, ArmRecovery, Open;
    GraceCancelled(s.(shuttingDown := true));
    GraceCancelled(Close(s.(shuttingDown := true), ShutDown));
    RecoveryCancelled(CancelGrace(s.(shuttingDown := true)));
    RecoveryCancelled(CancelGrace(Close(s.(shuttingDown := true), ShutDown)));
  }

  lemma AvailabilityMoves(s: State, payload: Availability)
    requires (s.job.Idle? || s.grace.None?) && Enabled(s, AvailabilityMessage(payload))
    ensures Moves(s, AvailabilityMessage(payload), Next(s, AvailabilityMessage(payload)))
  {
    hide ShutDownNow, HearMeta, Reconnect, FireGrace, FireRecovery, JudgeLock, JudgeConclude, JudgeCancel,
         BeginRepair, SkipStale, ConnectRepair, FinishJob, CancelGrace, CancelRecovery, ArmRecovery, Open;
    hide Undecided, Missing, GraceRunsOut;
    GraceCancelled(s.(availability := payload, activity := true));
    RecoveryCancelled(Close(CancelGrace(s.(availability := payload, activity := true)), RepairSucceeded));
  }

  lemma MetaMoves(s: State, kind: MetaKind)
    requires (s.job.Idle? || s.grace.None?) && Enabled(s, MetaMessage(kind))
    ensures Moves(s, MetaMessage(kind), Next(s, MetaMessage(kind)))
  {
    hide ShutDownNow, HearAvailability, Reconnect, FireGrace, FireRecovery, JudgeLock, JudgeConclude, JudgeCancel,
         BeginRepair, SkipStale, ConnectRepair, FinishJob, CancelGrace, CancelRecovery, ArmRecovery, Open;
    hide Undecided, Missing, GraceRunsOut;
    GraceCancelled(s.(activity := true));
    RecoveryCancelled(CancelGrace(s.(activity := true)));
    RecoveryCancelled(Close(CancelGrace(s.(activity := true)), LedgerFault));
  }

  lemma ReconnectMoves(s: State)
    requires (s.job.Idle? || s.grace.None?) && Enabled(s, BrokerReconnected)
    ensures Moves(s, BrokerReconnected, Next(s, BrokerReconnected))
  {
    hide ShutDownNow, HearAvailability, HearMeta, FireGrace, FireRecovery, JudgeLock, JudgeConclude, JudgeCancel,
         BeginRepair, SkipStale, ConnectRepair, FinishJob, CancelGrace, CancelRecovery, ArmRecovery, Judging;
    WindowArmed(s, s.origin);
  }

  lemma GraceSpends(s: State, e: Event)
    requires Enabled(s, e) && e.GraceFires? && !GraceRunsOut(s, e)
    ensures var t := Next(s, e);
            t == s.(live := t.live, nextTimer := t.nextTimer,
                    grace := if StartsGrace(s, e) then Some(s.nextTimer) else None)
  {
    hide BeginRepair, SetRecovery, Undecided, Unattended, Open;
  }

  lemma GraceSpentMoves(s: State, e: Event)
    requires Enabled(s, e) && e.GraceFires? && !GraceRunsOut(s, e)
    ensures Moves(s, e, Next(s, e))
  {
    hide Next, Enabled, GraceRunsOut, StartsGrace, Undecided, Missing, Unattended, Open;
    GraceSpends(s, e);
  }

  lemma GraceRanMoves(s: State, e: Event)
    requires (s.job.Idle? || s.grace.None?) && Enabled(s, e)
    requires GraceRunsOut(s, e)
    ensures Moves(s, e, Next(s, e))
  {
    hide ShutDownNow, HearAvailability, HearMeta, Reconnect, FireRecovery, JudgeLock, JudgeConclude, JudgeCancel,
         SkipStale, ConnectRepair, FinishJob, CancelGrace, CancelRecovery, ArmRecovery, Open;
    GraceCancelled(s.(live := s.live - {s.grace.value}, grace := None));
  }

  lemma RecoveryMoves(s: State)
    requires (s.job.Idle? || s.grace.None?) && Enabled(s, RecoveryFires)
    ensures Moves(s, RecoveryFires, Next(s, RecoveryFires))
  {
    hide ShutDownNow, HearAvailability, HearMeta, Reconnect, FireGrace, JudgeLock, JudgeConclude, JudgeCancel,
         BeginRepair, SkipStale, ConnectRepair, FinishJob, CancelGrace, CancelRecovery, ArmRecovery, Open;
    GraceCancelled(s.(live := s.live - {s.recovery.value}, recovery := None));
  }

  lemma StaleJudgeMoves(s: State, e: Event)
    requires (s.job.Idle? || s.grace.None?) && Enabled(s, e)
    requires (e.JudgeLocks? || e.JudgeConcludes?) && !LooksAtWindow(s, e)
    ensures Moves(s, e, Next(s, e))
  {
    hide ShutDownNow, HearAvailability, HearMeta, Reconnect, FireGrace, FireRecovery, JudgeCancel, BeginRepair,
         SkipStale, ConnectRepair, FinishJob, CancelGrace, CancelRecovery, ArmRecovery, Open;
  }

  lemma DecidedJudgeEnds(s: State, e: Event)
    requires Enabled(s, e) && (e.JudgeLocks? || e.JudgeConcludes?) && LooksAtWindow(s, e) && !Undecided(s)
    ensures Next(s, e) == Close(WithoutJudge(s, e.judge), if s.shuttingDown then ShutDown
                                  else if s.reason == RetainedLedger then LedgerFault else SeenOnline)
  {
    hide Close, WithoutJudge;
  }

  lemma DecidedJudgeMoves(s: State, e: Event)
    requires (s.job.Idle? || s.grace.None?) && Enabled(s, e)
    requires (e.JudgeLocks? || e.JudgeConcludes?) && LooksAtWindow(s, e) && !Undecided(s)
    ensures Moves(s, e, Next(s, e))
  {
    hide Next, Enabled, LooksAtWindow, Missing, Unattended, Open;
    DecidedJudgeEnds(s, e);
  }

  lemma DeferredJudgeMoves(s: State, e: Event)
    requires (s.job.Idle? || s.grace.None?) && Enabled(s, e)
    requires (e.JudgeLocks? || e.JudgeConcludes?) && LooksAtWindow(s, e) && Undecided(s) && s.broker == Some(false)
    ensures Moves(s, e, Next(s, e))
  {
    hide ShutDownNow, HearAvailability, HearMeta, Reconnect, FireGrace, FireRecovery, JudgeCancel, BeginRepair,
         SkipStale, ConnectRepair, FinishJob, CancelGrace, CancelRecovery, ArmRecovery, Open;
    GraceCancelled(WithoutJudge(s, e.judge));
  }

  lemma JudgeMoves(s: State, e: Event)
    requires (s.job.Idle? || s.grace.None?) && Enabled(s, e)
    requires (e.JudgeLocks? || e.JudgeConcludes?) && LooksAtWindow(s, e) && Undecided(s) && s.broker != Some(false)
    ensures Moves(s, e, Next(s, e))
  {
    hide ShutDownNow, HearAvailability, HearMeta, Reconnect, FireGrace, FireRecovery, JudgeCancel, BeginRepair,
         SkipStale, ConnectRepair, FinishJob, CancelGrace, CancelRecovery, ArmRecovery, Open;
    GraceCancelled(WithoutJudge(s, e.judge));
  }

  lemma CancelledJudgeMoves(s: State, j: nat)
    requires (s.job.Idle? || s.grace.None?) && Enabled(s, JudgeCancelled(j))
    ensures Moves(s, JudgeCancelled(j), Next(s, JudgeCancelled(j)))
  {
    hide Undecided, Missing, Unattended, Open, Warranted, MayArmGrace, GraceRunsOut;
  }

  lemma StartedMoves(s: State, e: Event)
    requires (s.job.Idle? || s.grace.None?) && Enabled(s, e)
    requires e.RepairAsked? || e.UpdateAsked?
    ensures Moves(s, e, Next(s, e))
  {
    hide ShutDownNow, HearAvailability, HearMeta, Reconnect, FireGrace, FireRecovery, JudgeLock, JudgeConclude,
         JudgeCancel, SkipStale, ConnectRepair, FinishJob, CancelGrace, CancelRecovery, ArmRecovery, Open;
    GraceCancelled(s);
  }

  lemma StaleSkips(s: State, e: Event)
    requires (s.job.Idle? || s.grace.None?) && Enabled(s, e)
    requires FindsStale(s, e)
    ensures e == RepairLocks || e == RepairRevalidates
    ensures var t := Next(s, e);
            t == s.(job := Idle, live := t.live, nextTimer := t.nextTimer,
                    reason := if s.availability == Online && s.reason != RetainedLedger then NoProblem else s.reason,
                    grace := if s.availability == Unknown && !s.shuttingDown then Some(s.nextTimer) else s.grace)
  {
    hide BeginRepair, ConnectRepair, FinishJob, Open;
  }

  lemma StaleRepairMoves(s: State, e: Event)
    requires (s.job.Idle? || s.grace.None?) && Enabled(s, e)
    requires FindsStale(s, e)
    ensures Moves(s, e, Next(s, e))
  {
    hide Next, Enabled, FindsStale, Missing, Undecided, Unattended, Open;
    StaleSkips(s, e);
  }

  lemma RepairMoves(s: State, e: Event)
    requires (s.job.Idle? || s.grace.None?) && Enabled(s, e)
    requires (e.RepairLocks? || e.RepairRevalidates?) && !FindsStale(s, e)
    ensures Moves(s, e, Next(s, e))
  {
    hide ShutDownNow, HearAvailability, HearMeta, Reconnect, FireGrace, FireRecovery, JudgeLock, JudgeConclude,
         JudgeCancel, BeginRepair, SkipStale, ConnectRepair, FinishJob, CancelGrace, CancelRecovery, ArmRecovery,
         Open;
  }

  lemma ConnectMoves(s: State, result: ConnectResult)
    requires (s.job.Idle? || s.grace.None?) && Enabled(s, RepairConnects(result))
    ensures Moves(s, RepairConnects(result), Next(s, RepairConnects(result)))
  {
    hide ShutDownNow, HearAvailability, HearMeta, Reconnect, FireGrace, FireRecovery, JudgeLock, JudgeConclude,
         JudgeCancel, BeginRepair, SkipStale, FinishJob, CancelGrace, CancelRecovery, ArmRecovery, Open;
  }

  lemma RepairEndMoves(s: State, ok: bool)
    requires (s.job.Idle? || s.grace.None?) && Enabled(s, RepairEnds(ok))
    ensures Moves(s, RepairEnds(ok), Next(s, RepairEnds(ok)))
  {
    hide ShutDownNow, HearAvailability, HearMeta, Reconnect, FireGrace, FireRecovery, JudgeLock, JudgeConclude,
         JudgeCancel, BeginRepair, SkipStale, ConnectRepair, CancelGrace, CancelRecovery, ArmRecovery, Open;
    WindowArmed(s, AfterRepair);
  }

  lemma UpdateEndMoves(s: State, outcome: UpdateResult)
    requires (s.job.Idle? || s.grace.None?) && Enabled(s, UpdateEnds(outcome))
    ensures Moves(s, UpdateEnds(outcome), Next(s, UpdateEnds(outcome)))
  {
    hide ShutDownNow, HearAvailability, HearMeta, Reconnect, FireGrace, FireRecovery, JudgeLock, JudgeConclude,
         JudgeCancel, BeginRepair, SkipStale, ConnectRepair, CancelGrace, CancelRecovery, ArmRecovery, Open;
    WindowArmed(s, AfterUpdate);
  }

  lemma PlainMoves(s: State, e: Event)
    requires (s.job.Idle? || s.grace.None?) && Enabled(s, e)
    requires e.Setup? || e.BrokerStatus? || e.RepairCancelled?
    ensures Moves(s, e, Next(s, e))
  {
    hide ShutDownNow, HearAvailability, HearMeta, Reconnect, FireGrace, FireRecovery, JudgeLock, JudgeConclude,
         JudgeCancel, BeginRepair, SkipStale, ConnectRepair, FinishJob, CancelGrace, CancelRecovery, ArmRecovery,
         Open;
  }

  /** Every event does exactly this. */
  lemma EveryMove(s: State, e: Event)
    requires TimersOwned(s) && Enabled(s, e)
    ensures Moves(s, e, Next(s, e))
  {
    hide Moves, Next, LooksAtWindow, Undecided, FindsStale, GraceRunsOut;
    match e
    case Shutdown => ShutdownMoves(s);
    case AvailabilityMessage(payload) => AvailabilityMoves(s, payload);
    case MetaMessage(kind) => MetaMoves(s, kind);
    case BrokerReconnected => ReconnectMoves(s);
    case GraceFires(_, _) => if GraceRunsOut(s, e) { GraceRanMoves(s, e); } else { GraceSpentMoves(s, e); }
    case RecoveryFires => RecoveryMoves(s);
    case JudgeLocks(_) => AnyJudgeMoves(s, e);
    case JudgeConcludes(_) => AnyJudgeMoves(s, e);
    case JudgeCancelled(j) => CancelledJudgeMoves(s, j);
    case RepairAsked => StartedMoves(s, e);
    case UpdateAsked => StartedMoves(s, e);
    case RepairLocks => if FindsStale(s, e) { StaleRepairMoves(s, e); } else { RepairMoves(s, e); }
    case RepairConnects(result) => ConnectMoves(s, result);
    case RepairRevalidates => if FindsStale(s, e) { StaleRepairMoves(s, e); } else { RepairMoves(s, e); }
    case RepairEnds(ok) => RepairEndMoves(s, ok);
    case UpdateEnds(outcome) => UpdateEndMoves(s, outcome);
    case _ => PlainMoves(s, e);
  }

  lemma AnyJudgeMoves(s: State, e: Event)
    requires (s.job.Idle? || s.grace.None?) && Enabled(s, e) && (e.JudgeLocks? || e.JudgeConcludes?)
    ensures Moves(s, e, Next(s, e))
  {
    hide Moves, Next, LooksAtWindow, Undecided;
    if !LooksAtWindow(s, e) { StaleJudgeMoves(s, e); }
    else if !Undecided(s) { DecidedJudgeMoves(s, e); }
    else if s.broker == Some(false) { DeferredJudgeMoves(s, e); }
    else { JudgeMoves(s, e); }
  }

  // ----- what it comes to -----

  /** An automatic repair starts exactly when the grace period runs out over a missing panel, with auto-repair on
      and no cooldown: the panel offline or never heard, the broker not known to be down, no shutdown and no
      ledger fault. */
  lemma AutoRepairStarts(s: State, e: Event)
    requires TimersOwned(s) && Enabled(s, e)
    ensures s.job == Idle && Next(s, e).job == Repair(Auto, Queued) <==>
              e.GraceFires? && e.autoRepair && !e.coolingDown && !s.shuttingDown && s.reason != RetainedLedger
              && (s.availability == Offline || s.availability == Unknown) && s.broker != Some(false)
  {
    hide Next;
    EveryMove(s, e);
  }

  /** A failure is declared exactly when the window's own judge has its journal, and still nothing decides. */
  lemma FailureIsDeclared(s: State, e: Event)
    requires TimersOwned(s) && Enabled(s, e)
    ensures Next(s, e).closings == s.closings + [Closing(s.generation, StillOffline, false)] <==>
              e.JudgeConcludes? && s.judges[e.judge].generation == s.generation && s.broker != Some(false)
              && !s.shuttingDown && s.reason != RetainedLedger && s.availability != Online
  {
    hide Next;
    EveryMove(s, e);
    var c := Closing(s.generation, StillOffline, false);
    assert (s.closings + [c])[|s.closings|] == c;
  }
}
