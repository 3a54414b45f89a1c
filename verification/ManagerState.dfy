/**
 * One panel's repair and recovery state machine. Each stretch between two awaits is one event; a timer
 * firing is atomic with its callback's first stretch. `live` holds the timers the event loop would
 * still fire, so a timer no handle remembers would show.
 */
module ManagerState {
  import opened Common

  datatype Availability = Unknown | Online | Offline | Garbled

  datatype Reason = NoProblem | RetainedLedger | OtherProblem

  datatype Trigger = Auto | Manual

  datatype Origin = AfterRepair | AfterUpdate

  datatype RepairStage = Queued | Connecting | Working

  /** What holds the panel's mutex; an update cares for no stage here. */
  datatype Job = Idle | Repair(trigger: Trigger, stage: RepairStage) | Update

  /** A recovery verdict in the making, across its awaits, for the window it was started for. */
  datatype JudgeStage = Waiting | Collecting

  datatype Judge = Judge(generation: nat, stage: JudgeStage)

  datatype Ending = RepairSucceeded | StillOffline | SeenOnline | LedgerFault | Superseded | ShutDown | Dropped

  /** How a recovery window ended, and whether the broker was known to be down at that moment. */
  datatype Closing = Closing(generation: nat, ending: Ending, brokerDown: bool)

  datatype State = State(
    shuttingDown: bool,
    availability: Availability,
    reason: Reason,
    broker: Option<bool>,
    live: set<nat>,
    nextTimer: nat,
    grace: Option<nat>,
    recovery: Option<nat>,
    deferred: bool,
    generation: nat,
    activity: bool,
    extended: bool,
    origin: Origin,
    job: Job,
    judges: map<nat, Judge>,
    nextJudge: nat,
    closings: seq<Closing>)

  const Start: State := State(
    false, Unknown, NoProblem, None, {}, 0, None, None, false, 0, false, false, AfterUpdate, Idle, map[], 0, [])

  /** Only a link known to be down counts; not knowing reads as available. */
  predicate BrokerDown(s: State) { s.broker == Some(false) }

  // ----- timers -----

  function CancelGrace(s: State): State {
    if s.grace.Some? then s.(live := s.live - {s.grace.value}, grace := None) else s
  }

  function CancelRecovery(s: State): State {
    if s.recovery.Some? then s.(live := s.live - {s.recovery.value}, recovery := None) else s
  }

  /** Scheduling overwrites the handle, whatever it held. */
  function SetGrace(s: State): State {
    s.(live := s.live + {s.nextTimer}, grace := Some(s.nextTimer), nextTimer := s.nextTimer + 1)
  }

  function SetRecovery(s: State): State {
    s.(live := s.live + {s.nextTimer}, recovery := Some(s.nextTimer), nextTimer := s.nextTimer + 1)
  }

  // ----- recovery windows -----

  /** The current window has not ended: its timer runs, its verdict is deferred, or it is being judged. */
  predicate Judging(s: State) { exists j :: j in s.judges && s.judges[j].generation == s.generation }

  predicate Open(s: State) { s.recovery.Some? || s.deferred || Judging(s) }

  function Close(s: State, ending: Ending): State {
    s.(closings := s.closings + [Closing(s.generation, ending, BrokerDown(s))])
  }

  function ArmRecovery(s: State, origin: Origin): State {
    var ended := if Open(s) then Close(s, Superseded) else s;
    SetRecovery(CancelRecovery(ended).(deferred := false, generation := s.generation + 1,
                                       activity := false, extended := false, origin := origin))
  }

  function Defer(s: State): State { CancelGrace(s).(deferred := true) }

  // ----- grace -----

  predicate MayArmGrace(s: State) {
    && !s.shuttingDown && s.availability.Offline? && !s.reason.RetainedLedger?
    && s.grace.None? && s.recovery.None? && !s.deferred && s.job.Idle?
  }

  function ArmOfflineGrace(s: State): State { if MayArmGrace(s) then SetGrace(s) else s }

  // ----- repair and update -----

  function BeginRepair(s: State, trigger: Trigger): State {
    if !s.job.Idle? then s else CancelGrace(s).(job := Repair(trigger, Queued))
  }

  predicate Warranted(s: State) {
    !s.shuttingDown && (s.availability.Offline? || s.availability.Unknown?) && !BrokerDown(s)
  }

  function SkipStale(s: State): State {
    var idle := s.(job := Idle);
    if s.availability.Online? then if s.reason.RetainedLedger? then idle else idle.(reason := NoProblem)
    else if s.availability.Unknown? && !s.shuttingDown && s.grace.None? then SetGrace(idle)
    else idle
  }

  datatype ConnectResult = HostKeyChanged | Unreachable | Connected

  datatype UpdateResult = Unchanged | Failed | Updated | Aborted

  /** A job that finished its work: cleared, and watched unless that would prove nothing. */
  function FinishJob(s: State, origin: Origin): State {
    if s.shuttingDown || s.reason.RetainedLedger? then s.(job := Idle) else ArmRecovery(s, origin).(job := Idle)
  }

  // ----- events -----

  datatype MetaKind = Invalid | Degraded | Healthy

  datatype Event =
    | Setup
    | Shutdown
    | AvailabilityMessage(payload: Availability)
    | MetaMessage(kind: MetaKind)
    | BrokerStatus(up: Option<bool>)
    | BrokerReconnected
    | GraceFires(autoRepair: bool, coolingDown: bool)
    | RecoveryFires
    | JudgeLocks(judge: nat)
    | JudgeConcludes(judge: nat)
    | JudgeCancelled(judge: nat)
    | RepairAsked
    | RepairLocks
    | RepairConnects(result: ConnectResult)
    | RepairRevalidates
    | RepairEnds(ok: bool)
    | RepairCancelled
    | UpdateAsked
    | UpdateEnds(outcome: UpdateResult)

  predicate Enabled(s: State, e: Event) {
    match e
    case GraceFires(_, _) => s.grace.Some? && s.grace.value in s.live
    case RecoveryFires => s.recovery.Some? && s.recovery.value in s.live
    case JudgeLocks(j) => j in s.judges && s.judges[j].stage.Waiting?
    case JudgeConcludes(j) => j in s.judges && s.judges[j].stage.Collecting?
    case JudgeCancelled(j) => j in s.judges
    case RepairLocks => s.job.Repair? && s.job.stage.Queued?
    case RepairConnects(_) => s.job.Repair? && s.job.stage.Connecting?
    case RepairRevalidates => s.job.Repair? && s.job.stage.Working?
    case RepairEnds(_) => s.job.Repair? && s.job.stage.Working?
    case RepairCancelled => s.job.Repair?
    case UpdateEnds(_) => s.job.Update?
    case _ => true
  }

  /** Shutdown drops both handles, ending a window its timer was watching. */
  function ShutDownNow(s: State): State {
    var down := s.(shuttingDown := true);
    CancelRecovery(CancelGrace(if s.recovery.Some? then Close(down, ShutDown) else down))
  }

  function HearAvailability(s: State, payload: Availability): State {
    if s.shuttingDown then s
    else
      var heard := s.(availability := payload, activity := s.activity || !payload.Unknown?);
      match payload
      case Online =>
        var calm := CancelGrace(heard);
        var judged := if s.recovery.Some? || s.deferred
          then CancelRecovery(Close(calm, RepairSucceeded)).(deferred := false) else calm;
        if s.reason.RetainedLedger? then judged else judged.(reason := NoProblem)
      case Offline => ArmOfflineGrace(heard)
      case _ => heard
  }

  function HearMeta(s: State, kind: MetaKind): State {
    if s.shuttingDown then s
    else
      var heard := s.(activity := true);
      match kind
      case Invalid => heard
      case Degraded =>
        var calm := CancelGrace(heard);
        CancelRecovery(if s.recovery.Some? then Close(calm, LedgerFault) else calm).(reason := RetainedLedger)
      case Healthy => if s.reason.RetainedLedger? then ArmOfflineGrace(heard.(reason := NoProblem)) else heard
  }

  function Reconnect(s: State): State {
    if !s.deferred then ArmOfflineGrace(s)
    else if !s.shuttingDown && s.job.Idle? then ArmRecovery(s, s.origin)
    else Close(s, Dropped).(deferred := false)
  }

  function FireGrace(s: State, autoRepair: bool, coolingDown: bool): State
    requires s.grace.Some?
  {
    var fired := s.(live := s.live - {s.grace.value}, grace := None);
    if s.shuttingDown || s.reason.RetainedLedger? || !(s.availability.Offline? || s.availability.Unknown?) then fired
    else if BrokerDown(s) then if s.availability.Unknown? then SetGrace(fired) else fired
    else if !autoRepair || coolingDown then fired.(reason := OtherProblem)
    else BeginRepair(fired, Auto)
  }

  /** The checks every stretch of a recovery verdict starts with. */
  function Settled(s: State): Option<Ending> {
    if s.shuttingDown then Some(ShutDown)
    else if s.reason.RetainedLedger? then Some(LedgerFault)
    else if s.availability.Online? then Some(SeenOnline)
    else None
  }

  function FireRecovery(s: State): State
    requires s.recovery.Some?
  {
    var fired := s.(live := s.live - {s.recovery.value}, recovery := None);
    if Settled(s).Some? then Close(fired, Settled(s).value)
    else if BrokerDown(s) then Defer(fired)
    else if s.activity && !s.extended then SetRecovery(fired.(extended := true))
    else fired.(judges := s.judges[s.nextJudge := Judge(s.generation, Waiting)], nextJudge := s.nextJudge + 1)
  }

  function WithoutJudge(s: State, j: nat): State { s.(judges := s.judges - {j}) }

  /** A judge that finds its window superseded, or something settled, says nothing. */
  function JudgeLock(s: State, j: nat): State
    requires j in s.judges
  {
    var rest := WithoutJudge(s, j);
    if s.judges[j].generation != s.generation then rest
    else if Settled(s).Some? then Close(rest, Settled(s).value)
    else if BrokerDown(s) then Defer(rest)
    else s.(judges := s.judges[j := s.judges[j].(stage := Collecting)])
  }

  function JudgeConclude(s: State, j: nat): State
    requires j in s.judges
  {
    var rest := WithoutJudge(s, j);
    if s.judges[j].generation != s.generation then rest
    else if Settled(s).Some? then Close(rest, Settled(s).value)
    else if BrokerDown(s) then Defer(rest)
    else Close(CancelGrace(rest), StillOffline).(reason := OtherProblem)
  }

  function JudgeCancel(s: State, j: nat): State
    requires j in s.judges
  {
    if s.judges[j].generation == s.generation then Close(WithoutJudge(s, j), Dropped) else WithoutJudge(s, j)
  }

  function ConnectRepair(s: State, result: ConnectResult): State
    requires s.job.Repair?
  {
    match result
    case HostKeyChanged => s.(job := Idle, reason := OtherProblem)
    case Unreachable =>
      var failed := s.(job := Idle, reason := OtherProblem);
      if s.shuttingDown || s.availability.Unknown? then failed else SetGrace(failed)
    case Connected => s.(job := s.job.(stage := Working))
  }

  function Next(s: State, e: Event): State
    requires Enabled(s, e)
  {
    match e
    case Setup => s.(shuttingDown := false)
    case Shutdown => ShutDownNow(s)
    case AvailabilityMessage(payload) => HearAvailability(s, payload)
    case MetaMessage(kind) => HearMeta(s, kind)
    case BrokerStatus(up) => s.(broker := up)
    case BrokerReconnected => Reconnect(s)
    case GraceFires(autoRepair, coolingDown) => FireGrace(s, autoRepair, coolingDown)
    case RecoveryFires => FireRecovery(s)
    case JudgeLocks(j) => JudgeLock(s, j)
    case JudgeConcludes(j) => JudgeConclude(s, j)
    case JudgeCancelled(j) => JudgeCancel(s, j)
    case RepairAsked => BeginRepair(s, Manual)
    case RepairLocks =>
      if s.job.trigger.Auto? && !Warranted(s) then SkipStale(s) else s.(job := s.job.(stage := Connecting))
    case RepairConnects(result) => ConnectRepair(s, result)
    case RepairRevalidates => if s.job.trigger.Auto? && !Warranted(s) then SkipStale(s) else s
    case RepairEnds(ok) => if ok then FinishJob(s, AfterRepair) else s.(job := Idle, reason := OtherProblem)
    case RepairCancelled => s.(job := Idle)
    case UpdateAsked => if s.job.Idle? then CancelGrace(s).(job := Update) else s
    case UpdateEnds(outcome) =>
      match outcome
      case Failed => s.(job := Idle, reason := OtherProblem)
      case Updated => FinishJob(s, AfterUpdate)
      case _ => s.(job := Idle)
  }

  ghost predicate Steps(s: State, t: State) { exists e :: Enabled(s, e) && t == Next(s, e) }

  /** Every interleaving: a run is any sequence of events, each enabled when it happens. */
  ghost predicate Run(states: seq<State>) {
    |states| > 0 && states[0] == Start && forall i :: 0 < i < |states| ==> Steps(states[i - 1], states[i])
  }
}
