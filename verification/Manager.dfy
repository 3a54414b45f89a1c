/** The panel manager's callbacks and tasks as they run, one method per stretch between awaits. */
module Manager {
  import opened Common
  import opened ManagerState

  class PanelManager {
    var shuttingDown: bool
    var availability: Availability
    var reason: Reason
    var broker: Option<bool>
    var live: set<nat>
    var nextTimer: nat
    var grace: Option<nat>
    var recovery: Option<nat>
    var deferred: bool
    var generation: nat
    var activity: bool
    var extended: bool
    var origin: Origin
    var job: Job
    var judges: map<nat, Judge>
    var nextJudge: nat
    ghost var closings: seq<Closing>

    constructor ()
      ensures Now() == Start
    {
      shuttingDown, availability, reason, broker := false, Unknown, NoProblem, None;
      live, nextTimer, grace, recovery := {}, 0, None, None;
      deferred, generation, activity, extended, origin := false, 0, false, false, AfterUpdate;
      job, judges, nextJudge, closings := Idle, map[], 0, [];
    }

    ghost function Now(): State
      reads this
    {
      State(shuttingDown, availability, reason, broker, live, nextTimer, grace, recovery, deferred, generation,
            activity, extended, origin, job, judges, nextJudge, closings)
    }

    method CancelGraceTimer()
      modifies this
      ensures Now() == CancelGrace(old(Now()))
    {
      if grace.Some? {
        live := live - {grace.value};
        grace := None;
      }
    }

    method CancelRecoveryTimer()
      modifies this
      ensures Now() == CancelRecovery(old(Now()))
    {
      if recovery.Some? {
        live := live - {recovery.value};
        recovery := None;
      }
    }

    /** Schedule a callback; the loop fires it unless its handle cancels it. */
    method CallLater() returns (timer: nat)
      modifies this
      ensures Now() == old(Now()).(live := old(live) + {old(nextTimer)}, nextTimer := old(nextTimer) + 1)
              && timer == old(nextTimer)
    {
      timer := nextTimer;
      live := live + {timer};
      nextTimer := nextTimer + 1;
    }

    /** Record how the current window ended. */
    ghost method EndWindow(ending: Ending)
      modifies this`closings
      ensures Now() == Close(old(Now()), ending)
    {
      closings := closings + [Closing(generation, ending, BrokerDown(Now()))];
    }

    /** A fresh window supersedes whatever stood for the last one. */
    method OpenWindow(why: Origin)
      requires recovery.None?
      modifies this
      ensures Now() == old(Now()).(deferred := false, generation := old(generation) + 1, activity := false,
                                   extended := false, origin := why, live := old(live) + {old(nextTimer)},
                                   recovery := Some(old(nextTimer)), nextTimer := old(nextTimer) + 1)
    {
      hide Judging, Open, MayArmGrace;
      var timer := CallLater();
      recovery := Some(timer);
      deferred, generation, activity, extended, origin := false, generation + 1, false, false, why;
    }

    /** Start the window that decides whether a restart worked. */
    method Arm(why: Origin)
      modifies this
      ensures Now() == ArmRecovery(old(Now()), why)
    {
      hide Judging, Open;
      if Open(Now()) { EndWindow(Superseded); }
      CancelRecoveryTimer();
      OpenWindow(why);
    }

    method ArmOfflineGraceTimer()
      modifies this
      ensures Now() == ArmOfflineGrace(old(Now()))
    {
      if shuttingDown || !availability.Offline? || reason.RetainedLedger? || grace.Some? || recovery.Some? || deferred
         || !job.Idle? {
        return;
      }
      var timer := CallLater();
      grace := Some(timer);
    }

    method Setup()
      modifies this
      ensures Now() == old(Now()).(shuttingDown := false)
    {
      shuttingDown := false;
    }

    method Stop()
      modifies this
      ensures Now() == ShutDownNow(old(Now()))
    {
      if recovery.Some? { EndWindow(ShutDown); }
      shuttingDown := true;
      CancelGraceTimer();
      CancelRecoveryTimer();
    }

    /** The bridge is back: a pending or deferred window succeeded. */
    method SettleOnline()
      modifies this
      ensures var s := old(Now());
              Now() == if s.recovery.Some? || s.deferred
                then CancelRecovery(Close(s, RepairSucceeded)).(deferred := false) else s
    {
      if recovery.Some? || deferred {
        EndWindow(RepairSucceeded);
        CancelRecoveryTimer();
        deferred := false;
      }
    }

    method OnAvailability(payload: Availability)
      modifies this
      ensures Now() == HearAvailability(old(Now()), payload)
    {
      hide Judging, Open, MayArmGrace;
      if shuttingDown { return; }
      if !payload.Unknown? { activity := true; }
      availability := payload;
      if payload.Online? {
        CancelGraceTimer();
        SettleOnline();
        if !reason.RetainedLedger? { reason := NoProblem; }
      } else if payload.Offline? {
        ArmOfflineGraceTimer();
      }
    }

    method OnMeta(kind: MetaKind)
      modifies this
      ensures Now() == HearMeta(old(Now()), kind)
    {
      if shuttingDown { return; }
      activity := true;
      match kind {
        case Invalid =>
        case Degraded =>
          CancelGraceTimer();
          if recovery.Some? { EndWindow(LedgerFault); }
          CancelRecoveryTimer();
          reason := RetainedLedger;
        case Healthy =>
          if reason.RetainedLedger? {
            reason := NoProblem;
            ArmOfflineGraceTimer();
          }
      }
    }

    method OnBrokerReconnected()
      modifies this
      ensures Now() == Reconnect(old(Now()))
    {
      if !deferred {
        ArmOfflineGraceTimer();
      } else if !shuttingDown && job.Idle? {
        Arm(origin);
      } else {
        EndWindow(Dropped);
        deferred := false;
      }
    }

    /** Take the panel's mutex for a repair, unless it is taken. */
    method BeginRepairing(trigger: Trigger)
      modifies this
      ensures Now() == BeginRepair(old(Now()), trigger)
    {
      if !job.Idle? { return; }
      CancelGraceTimer();
      job := Repair(trigger, Queued);
    }

    method ScheduleGrace()
      modifies this
      ensures Now() == SetGrace(old(Now()))
    {
      hide Judging, Open, MayArmGrace;
      var timer := CallLater();
      grace := Some(timer);
    }

    method GraceExpired(autoRepair: bool, coolingDown: bool)
      requires Enabled(Now(), GraceFires(autoRepair, coolingDown))
      modifies this
      ensures Now() == FireGrace(old(Now()), autoRepair, coolingDown)
    {
      hide Judging, Open, MayArmGrace;
      live := live - {grace.value};
      grace := None;
      if shuttingDown || reason.RetainedLedger? || availability.Online? || availability.Garbled? { return; }
      if broker == Some(false) {
        if availability.Unknown? { ScheduleGrace(); }
        return;
      }
      if !autoRepair || coolingDown {
        reason := OtherProblem;
        return;
      }
      BeginRepairing(Auto);
    }

    method DeferVerdict()
      modifies this
      ensures Now() == Defer(old(Now()))
    {
      CancelGraceTimer();
      deferred := true;
    }

    /** What already decides a window: shutdown, the ledger fault, or the bridge being back. */
    function SettledNow(): (ending: Option<Ending>)
      reads this
    {
      if shuttingDown then Some(ShutDown)
      else if reason.RetainedLedger? then Some(LedgerFault)
      else if availability.Online? then Some(SeenOnline)
      else None
    }

    /** Activity was heard, so the window gets its one extension. */
    method ExtendWindow()
      modifies this
      ensures Now() == SetRecovery(old(Now()).(extended := true))
    {
      hide Judging, Open, MayArmGrace;
      extended := true;
      var timer := CallLater();
      recovery := Some(timer);
    }

    /** The recovery timer fires: settled, deferred, extended once, or put to a judge. */
    method RecoveryTimeout()
      requires Enabled(Now(), RecoveryFires)
      modifies this
      ensures Now() == FireRecovery(old(Now()))
    {
      hide Judging, Open, MayArmGrace;
      live := live - {recovery.value};
      recovery := None;
      var settled := SettledNow();
      if settled.Some? {
        EndWindow(settled.value);
      } else if broker == Some(false) {
        DeferVerdict();
      } else if activity && !extended {
        ExtendWindow();
      } else {
        judges := judges[nextJudge := Judge(generation, Waiting)];
        nextJudge := nextJudge + 1;
      }
    }

    /** Under the fleet lock the judge looks again before it collects the journal. */
    method JudgeLocked(j: nat)
      requires Enabled(Now(), JudgeLocks(j))
      modifies this
      ensures Now() == JudgeLock(old(Now()), j)
    {
      var mine := judges[j].generation;
      var settled := SettledNow();
      if mine != generation || settled.Some? || broker == Some(false) {
        judges := judges - {j};
        if mine != generation { return; }
        if settled.Some? {
          EndWindow(settled.value);
        } else {
          DeferVerdict();
        }
      } else {
        judges := judges[j := judges[j].(stage := Collecting)];
      }
    }

    /** After the journal is in, the state is checked once more before a failure is declared. */
    method JudgeConcluded(j: nat)
      requires Enabled(Now(), JudgeConcludes(j))
      modifies this
      ensures Now() == JudgeConclude(old(Now()), j)
    {
      var mine := judges[j].generation;
      judges := judges - {j};
      if mine != generation { return; }
      var settled := SettledNow();
      if settled.Some? {
        EndWindow(settled.value);
      } else if broker == Some(false) {
        DeferVerdict();
      } else {
        CancelGraceTimer();
        EndWindow(StillOffline);
        reason := OtherProblem;
      }
    }

    /** A judge cut short gives no verdict. */
    method JudgeAborted(j: nat)
      requires Enabled(Now(), JudgeCancelled(j))
      modifies this
      ensures Now() == JudgeCancel(old(Now()), j)
    {
      var mine := judges[j].generation;
      judges := judges - {j};
      if mine == generation { EndWindow(Dropped); }
    }

    method SkipStaleRepair()
      modifies this
      ensures Now() == SkipStale(old(Now()))
    {
      job := Idle;
      if availability.Online? {
        if !reason.RetainedLedger? { reason := NoProblem; }
      } else if availability.Unknown? && !shuttingDown && grace.None? {
        var timer := CallLater();
        grace := Some(timer);
      }
    }

    predicate StillWarranted()
      reads this
    {
      !shuttingDown && (availability.Offline? || availability.Unknown?) && broker != Some(false)
    }

    method RepairLocked()
      requires Enabled(Now(), RepairLocks)
      modifies this
      ensures Now() == Next(old(Now()), RepairLocks)
    {
      if job.trigger.Auto? && !StillWarranted() { SkipStaleRepair(); } else { job := job.(stage := Connecting); }
    }

    method RepairConnected(result: ConnectResult)
      requires Enabled(Now(), RepairConnects(result))
      modifies this
      ensures Now() == ConnectRepair(old(Now()), result)
    {
      match result {
        case HostKeyChanged =>
          reason := OtherProblem;
          job := Idle;
        case Unreachable =>
          reason := OtherProblem;
          job := Idle;
          if !shuttingDown && !availability.Unknown? {
            var timer := CallLater();
            grace := Some(timer);
          }
        case Connected =>
          job := job.(stage := Working);
      }
    }

    method RepairRevalidated()
      requires Enabled(Now(), RepairRevalidates)
      modifies this
      ensures Now() == Next(old(Now()), RepairRevalidates)
    {
      if job.trigger.Auto? && !StillWarranted() { SkipStaleRepair(); }
    }

    method RepairEnded(ok: bool)
      requires Enabled(Now(), RepairEnds(ok))
      modifies this
      ensures Now() == Next(old(Now()), RepairEnds(ok))
    {
      if !ok { reason := OtherProblem; }
      else if !shuttingDown && !reason.RetainedLedger? { Arm(AfterRepair); }
      job := Idle;
    }

    method UpdateStarted()
      modifies this
      ensures Now() == Next(old(Now()), UpdateAsked)
    {
      if job.Idle? {
        CancelGraceTimer();
        job := Update;
      }
    }

    method UpdateEnded(outcome: UpdateResult)
      requires Enabled(Now(), UpdateEnds(outcome))
      modifies this
      ensures Now() == Next(old(Now()), UpdateEnds(outcome))
    {
      if outcome.Failed? { reason := OtherProblem; }
      else if outcome.Updated? && !shuttingDown && !reason.RetainedLedger? { Arm(AfterUpdate); }
      job := Idle;
    }
  }
}
