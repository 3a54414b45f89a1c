/**
 * The provisioning journal: one active record and the retained rollbacks, each write checked against
 * what the stores hold at that moment, and nothing else. Every method re-reads the store first; a read
 * may fail. When what the provisioner has established makes a write a step of the protocol, the site's
 * history stays a run of it.
 */
module Journal {
  import opened Common
  import opened PanelState
  import opened Rollback
  import opened Records
  import opened Protocol
  import opened Safety
  import opened DurableSite

  class ProvisioningJournal {
    const site: Site

    constructor (site: Site)
      ensures this.site == site
    {
      this.site := site;
    }

    method Load() returns (signal: Signal, record: Option<Record>)
      ensures signal.Done? ==> record == site.w.active
      ensures site.calm ==> signal.Done?
    {
      signal := site.Trouble();
      record := if signal.Done? then site.w.active else None;
    }

    method RetainedOf(transaction: Uuid) returns (signal: Signal, e: Option<Retained>)
      ensures signal.Done? ==> e == if transaction in site.w.retained then Some(site.w.retained[transaction]) else None
      ensures site.calm ==> signal.Done?
    {
      signal := site.Trouble();
      e := if signal.Done? && transaction in site.w.retained then Some(site.w.retained[transaction]) else None;
    }

    /** Some retained transaction already holds this panel. */
    static predicate PanelTaken(w: World, panel: Fingerprint) {
      exists t :: t in w.retained && w.retained[t].record.Panel() == panel
    }

    /** A rollback armed for this very record before, or a panel no other transaction is retained for. */
    static predicate MayArm(w: World, record: Record) {
      record.snapshot.baseline.None?
      || (if record.transaction in w.retained then w.retained[record.transaction].record == Scrub(record)
          else !PanelTaken(w, record.Panel()))
    }

    static function Armed(w: World, record: Record): World {
      if record.snapshot.baseline.None? || record.transaction in w.retained then w
      else w.(retained := w.retained[record.transaction := Retained(Scrub(record), RetainedState.Armed, None, false)])
    }

    static predicate MayCreate(w: World, record: Record) {
      w.active.None? && record.phase.Staged? && MayArm(w, record)
    }

    /** What the provisioner has established for a new record. */
    static ghost predicate Established(w: World, record: Record) {
      && (Onboarding(record.operation) || record.operation.Update?) && Fresh(w, record) && record.Panel() in w.panels
      && Sound(record.snapshot) && Held(w.panels[record.Panel()], record.snapshot)
      && IsPrior(w.panels[record.Panel()], record.snapshot)
    }

    /** Arm the retained rollback, then save the staged record; refused while anything is active, for a
        record that is not staged, and while another transaction is retained for the panel. A rollback
        already armed for the same record is taken as it is. */
    method Create(record: Record) returns (signal: Signal)
      modifies site
      ensures old(site.history) <= site.history
      ensures old(site.Valid()) && Established(old(site.w), record) ==> site.Valid()
      ensures site.calm ==> !signal.Crashed?
      ensures site.w == old(site.w)
              || (MayCreate(old(site.w), record)
                  && (site.w == Armed(old(site.w), record)
                      || site.w == Armed(old(site.w), record).(active := Some(record), disturbed := false)))
      ensures signal.Done? ==>
                MayCreate(old(site.w), record)
                  && site.w == Armed(old(site.w), record).(active := Some(record), disturbed := false)
      ensures site.calm ==> (signal.Done? <==> MayCreate(old(site.w), record))
    {
      hide Inv, IsPrior, Sound;
      if !record.phase.Staged? { return Failed; }
      signal := site.Trouble();
      if !signal.Done? { return; }
      if site.w.active.Some? { return Failed; }
      if record.snapshot.baseline.Some? {
        if record.transaction in site.w.retained {
          if site.w.retained[record.transaction].record != Scrub(record) { return Failed; }
        } else {
          if PanelTaken(site.w, record.Panel()) { return Failed; }
          signal := site.Attempt(Arm(record));
          if !signal.Done? { return; }
        }
      }
      signal := site.Attempt(SaveStaged(record));
    }

    static predicate MayTake(w: World, transaction: Uuid, phase: Phase) {
      IsActive(w, transaction) && phase in Transitions(w.active.value.phase)
    }

    /** Save one approved phase edge of the current transaction. */
    method Transition(transaction: Uuid, phase: Phase, error: Option<string>) returns (signal: Signal)
      modifies site
      ensures old(site.history) <= site.history
      ensures old(site.Valid()) && (MayTake(old(site.w), transaction, phase) ==> MayTransition(old(site.w), phase)) ==>
                site.Valid()
      ensures site.calm ==> !signal.Crashed?
      ensures site.w == old(site.w)
              || (MayTake(old(site.w), transaction, phase) && site.w == Advance(old(site.w), phase, error))
      ensures signal.Done? ==> MayTake(old(site.w), transaction, phase) && site.w == Advance(old(site.w), phase, error)
      ensures site.calm ==> (signal.Done? <==> MayTake(old(site.w), transaction, phase))
    {
      hide Inv, MayTransition;
      signal := site.Trouble();
      if !signal.Done? { return; }
      if !MayTake(site.w, transaction, phase) { return Failed; }
      signal := site.Attempt(SaveTransition(phase, error));
    }

    /** Replace the recorded failure, never the phase. */
    method RecordError(transaction: Uuid, error: Option<string>) returns (signal: Signal)
      modifies site
      ensures old(site.history) <= site.history && (old(site.Valid()) ==> site.Valid())
      ensures site.calm ==> !signal.Crashed?
      ensures site.w == old(site.w) || (IsActive(old(site.w), transaction)
                && site.w == old(site.w).(active := Some(old(site.w).active.value.(error := error))))
      ensures signal.Done? ==>
                IsActive(old(site.w), transaction)
                && site.w == old(site.w).(active := Some(old(site.w).active.value.(error := error)))
      ensures site.calm ==> (signal.Done? <==> IsActive(old(site.w), transaction))
    {
      hide Inv;
      signal := site.Trouble();
      if !signal.Done? { return; }
      if !IsActive(site.w, transaction) { return Failed; }
      signal := site.Attempt(SaveError(error));
    }

    static predicate MayMove(w: World, transaction: Uuid, state: RetainedState) {
      transaction in w.retained
      && (state == w.retained[transaction].state || state in RetainedEdges(w.retained[transaction].state))
    }

    /** Move a retained rollback along a permitted edge, keeping earlier evidence unless new is given. */
    method SetRetained(transaction: Uuid, state: RetainedState, evidence: Option<Uuid>) returns (signal: Signal)
      modifies site
      ensures old(site.history) <= site.history
      ensures old(site.Valid())
              && (MayMove(old(site.w), transaction, state) ==> MayRetain(old(site.w), transaction, state, evidence)) ==>
                site.Valid()
      ensures site.calm ==> !signal.Crashed?
      ensures site.w == old(site.w)
              || (MayMove(old(site.w), transaction, state)
                  && site.w == Retain(old(site.w), transaction, state, evidence))
      ensures signal.Done? ==>
                MayMove(old(site.w), transaction, state) && site.w == Retain(old(site.w), transaction, state, evidence)
      ensures site.calm ==> (signal.Done? <==> MayMove(old(site.w), transaction, state))
    {
      hide Inv, MayRetain;
      signal := site.Trouble();
      if !signal.Done? { return; }
      if !MayMove(site.w, transaction, state) { return Failed; }
      signal := site.Attempt(SaveRetained(transaction, state, evidence));
    }

    static predicate MayBeginRestore(w: World, transaction: Uuid) {
      transaction in w.retained && w.retained[transaction].state.RestoreRequested?
        && (w.active.None? || IsActive(w, transaction))
    }

    /** Turn a durable restore request into the journal's rollback-pending record. */
    method BeginRestore(transaction: Uuid, password: string) returns (signal: Signal)
      modifies site
      ensures old(site.history) <= site.history && (old(site.Valid()) ==> site.Valid())
      ensures site.calm ==> !signal.Crashed?
      ensures site.w == old(site.w) || (MayBeginRestore(old(site.w), transaction)
                && site.w == old(site.w).(active := Some(RestoreRecord(old(site.w).retained[transaction],
                   old(site.w).active, password))))
      ensures signal.Done? ==>
                MayBeginRestore(old(site.w), transaction)
                && site.w == old(site.w).(active := Some(RestoreRecord(old(site.w).retained[transaction],
                   old(site.w).active, password)))
      ensures site.calm ==> (signal.Done? <==> MayBeginRestore(old(site.w), transaction))
    {
      hide Inv;
      signal := site.Trouble();
      if !signal.Done? { return; }
      if !MayBeginRestore(site.w, transaction) { return Failed; }
      if site.w.active != Some(RestoreRecord(site.w.retained[transaction], site.w.active, password)) {
        signal := site.Attempt(SaveRestore(transaction, password));
      }
    }

    /** The retained rollback moves with the journal only where there is a baseline to move. */
    static predicate MayFollow(w: World, record: Record, state: RetainedState) {
      record.snapshot.baseline.None? || MayMove(w, record.transaction, state)
    }

    static function Following(w: World, record: Record, state: RetainedState): World
      requires MayFollow(w, record, state)
    {
      if record.snapshot.baseline.None? then w else Retain(w, record.transaction, state, None)
    }

    /** Soak the rollback, save committed, clear; or just clear when the commit is already durable. */
    method CompleteCommit(transaction: Uuid) returns (signal: Signal)
      modifies site
      ensures old(site.history) <= site.history && (old(site.Valid()) ==> site.Valid())
      ensures site.calm ==> !signal.Crashed?
      ensures site.w.panels == old(site.w).panels && site.w.observed == old(site.w).observed
              && site.w.disturbed == old(site.w).disturbed
      ensures site.w.active == old(site.w).active || site.w.active.None?
              || (IsActive(old(site.w), transaction)
                  && site.w.active == Some(old(site.w).active.value.(phase := Committed)))
      ensures signal.Done? ==>
                IsActive(old(site.w), transaction)
                && if old(site.w).active.value.phase.Committed? then site.w == old(site.w).(active := None)
                   else
                     old(site.w).active.value.phase.PendingConfigCommit?
                     && MayFollow(old(site.w), old(site.w).active.value, Soak)
                     && site.w == Following(old(site.w), old(site.w).active.value, Soak).(active := None)
      ensures site.calm ==> (signal.Done? <==>
                IsActive(old(site.w), transaction)
                && (old(site.w).active.value.phase.Committed?
                    || (old(site.w).active.value.phase.PendingConfigCommit?
                        && MayFollow(old(site.w), old(site.w).active.value, Soak))))
      ensures site.calm && !signal.Done? ==> site.w == old(site.w)
    {
      hide Inv;
      signal := site.Trouble();
      if !signal.Done? { return; }
      if !IsActive(site.w, transaction) { return Failed; }
      if site.Valid() { ActiveHasBaseline(site.w); }
      if site.w.active.value.phase.PendingConfigCommit? {
        if site.w.active.value.snapshot.baseline.Some? {
          signal := SetRetained(transaction, Soak, None);
          if !signal.Done? { return; }
        }
        signal := site.Attempt(SaveCommitted);
        if !signal.Done? { return; }
      } else if !site.w.active.value.phase.Committed? {
        return Failed;
      }
      signal := site.Attempt(Clear);
    }

    /** Save rolled back, then clear, for a restore that was verified. */
    method CompleteRollback(transaction: Uuid, verified: bool) returns (signal: Signal)
      modifies site
      ensures old(site.history) <= site.history
      ensures old(site.Valid())
              && (verified && IsActive(old(site.w), transaction) && old(site.w).active.value.phase.RollbackPending? ==>
                    Enabled(old(site.w), SaveRolledBack))
              && (verified && IsActive(old(site.w), transaction) && old(site.w).active.value.phase.RolledBack? ==>
                    MayClear(old(site.w)))
              ==> site.Valid()
      ensures site.calm ==> !signal.Crashed?
      ensures site.w == old(site.w).(active := site.w.active) && (!verified ==> site.w == old(site.w))
      ensures site.w.active == old(site.w).active || site.w.active.None?
              || (IsActive(old(site.w), transaction)
                  && site.w.active == Some(old(site.w).active.value.(phase := RolledBack)))
      ensures signal.Done? ==>
                site.w.active.None? && verified && IsActive(old(site.w), transaction)
                && (old(site.w).active.value.phase.RollbackPending? || old(site.w).active.value.phase.RolledBack?)
      ensures site.calm ==> (signal.Done? <==>
                verified && IsActive(old(site.w), transaction)
                && (old(site.w).active.value.phase.RollbackPending? || old(site.w).active.value.phase.RolledBack?))
      ensures site.calm && !signal.Done? ==> site.w == old(site.w)
    {
      hide Inv, RunsCandidate, IsPrior, IsPriorUnder;
      if !verified { return Failed; }
      signal := site.Trouble();
      if !signal.Done? { return; }
      if !IsActive(site.w, transaction) { return Failed; }
      if site.w.active.value.phase.RollbackPending? {
        if site.Valid() { RestoredIsProven(site.w); }
        signal := site.Attempt(SaveRolledBack);
        if !signal.Done? { return; }
      } else if !site.w.active.value.phase.RolledBack? {
        return Failed;
      }
      signal := site.Attempt(Clear);
    }

    /** Clear a candidate that never became active. */
    method CompleteCleanup(transaction: Uuid) returns (signal: Signal)
      modifies site
      ensures old(site.history) <= site.history
      ensures old(site.Valid())
              && (IsActive(old(site.w), transaction) && old(site.w).active.value.phase.Staged? ==>
                    MayClear(old(site.w)))
              ==> site.Valid()
      ensures site.calm ==> !signal.Crashed?
      ensures site.w == old(site.w).(active := site.w.active)
      ensures site.w.active == old(site.w).active || site.w.active.None?
      ensures signal.Done? ==>
                site.w.active.None? && IsActive(old(site.w), transaction) && old(site.w).active.value.phase.Staged?
      ensures site.calm ==>
                (signal.Done? <==> IsActive(old(site.w), transaction) && old(site.w).active.value.phase.Staged?)
    {
      hide Inv, MayClear;
      signal := site.Trouble();
      if !signal.Done? { return; }
      if !IsActive(site.w, transaction) || !site.w.active.value.phase.Staged? { return Failed; }
      signal := site.Attempt(Clear);
    }

    static predicate MayUndo(w: World, transaction: Uuid) {
      && IsActive(w, transaction) && w.active.value.snapshot.layout.Absent? && w.active.value.phase.RollbackPending?
      && MayFollow(w, w.active.value, Restored)
    }

    /** An undone first install has no predecessor to verify over MQTT. */
    method CompleteAbsentRollback(transaction: Uuid) returns (signal: Signal)
      modifies site
      ensures old(site.history) <= site.history
      ensures old(site.Valid())
              && (MayUndo(old(site.w), transaction) ==> MayRetain(old(site.w), transaction, Restored, None)) ==>
                    site.Valid()
      ensures site.calm ==> !signal.Crashed?
      ensures site.w.panels == old(site.w).panels && site.w.observed == old(site.w).observed
      ensures site.w.active == old(site.w).active || site.w.active.None?
      ensures site.w.retained == old(site.w).retained
              || (MayUndo(old(site.w), transaction)
                  && site.w.retained == Following(old(site.w), old(site.w).active.value, Restored).retained)
      ensures signal.Done? ==>
                MayUndo(old(site.w), transaction)
                && site.w == Following(old(site.w), old(site.w).active.value, Restored).(active := None)
      ensures site.calm ==> (signal.Done? <==> MayUndo(old(site.w), transaction))
    {
      hide Inv, RunsCandidate, IsPrior, IsPriorUnder, MayRetain;
      signal := site.Trouble();
      if !signal.Done? { return; }
      if !IsActive(site.w, transaction) || !site.w.active.value.snapshot.layout.Absent?
         || !site.w.active.value.phase.RollbackPending? {
        return Failed;
      }
      if site.Valid() { ActiveHasBaseline(site.w); }
      if site.w.active.value.snapshot.baseline.Some? {
        signal := SetRetained(transaction, Restored, None);
        if !signal.Done? { return; }
      }
      signal := site.Attempt(Clear);
    }

    /** Fresh operator intent to finalize exactly this verified, ownerless restore. */
    method BeginOwnerlessFinalize(expected: Retained) returns (signal: Signal)
      modifies site
      ensures old(site.history) <= site.history && (old(site.Valid()) ==> site.Valid())
      ensures site.calm ==> !signal.Crashed?
      ensures var t := expected.record.transaction;
              site.w == old(site.w)
                || site.w == old(site.w).(retained := old(site.w).retained[t := expected.(state := Finalizing,
                   ownerless := true)])
      ensures signal.Done? ==>
                var t := expected.record.transaction;
                && old(site.w).active.None? && t in old(site.w).retained && old(site.w).retained[t] == expected
                && OwnerlessFinalizationAllowed(expected)
                && site.w == old(site.w).(retained := old(site.w).retained[t := expected.(state := Finalizing,
                   ownerless := true)])
      ensures site.calm ==> (signal.Done? <==>
                && old(site.w).active.None? && expected.record.transaction in old(site.w).retained
                && old(site.w).retained[expected.record.transaction] == expected
                && OwnerlessFinalizationAllowed(expected))
    {
      hide Inv;
      var t := expected.record.transaction;
      signal := site.Trouble();
      if !signal.Done? { return; }
      if site.w.active.Some? || t !in site.w.retained || site.w.retained[t] != expected
         || !OwnerlessFinalizationAllowed(expected) {
        return Failed;
      }
      signal := site.Attempt(MarkOwnerless(t));
    }

    /** Forget a retained rollback; only from finalizing. */
    method RemoveRetained(transaction: Uuid) returns (signal: Signal)
      modifies site
      ensures old(site.history) <= site.history
      ensures old(site.Valid())
              && (transaction in old(site.w).retained && old(site.w).retained[transaction].state.Finalizing? ==>
                    Enabled(old(site.w), Step.RemoveRetained(transaction)))
              ==> site.Valid()
      ensures site.calm ==> !signal.Crashed?
      ensures site.w == old(site.w) || site.w == old(site.w).(retained := old(site.w).retained - {transaction})
      ensures signal.Done? ==>
                (transaction in old(site.w).retained ==> old(site.w).retained[transaction].state.Finalizing?)
                && site.w == old(site.w).(retained := old(site.w).retained - {transaction})
      ensures site.calm ==>
                (signal.Done? <==>
                  transaction !in old(site.w).retained || old(site.w).retained[transaction].state.Finalizing?)
    {
      hide Inv;
      signal := site.Trouble();
      if !signal.Done? { return; }
      if transaction !in site.w.retained {
        assert site.w.retained - {transaction} == site.w.retained;
        return;
      }
      if !site.w.retained[transaction].state.Finalizing? { return Failed; }
      signal := site.Attempt(Step.RemoveRetained(transaction));
    }
  }

  lemma ActiveHasBaseline(w: World)
    requires Inv(w) && w.active.Some?
    ensures ActiveOnPanel(w) && w.active.value.snapshot.baseline.Some?
  {
    hide Facts, Held, PanelsOk, OnePerPanel;
    assert RetainedOk(w, w.active.value.transaction);
  }

  /** A restore recorded as done over an existing predecessor has its evidence. */
  lemma RestoredIsProven(w: World)
    requires Inv(w) && w.active.Some? && w.active.value.phase.RollbackPending?
    ensures ActiveOnPanel(w)
    ensures w.retained[w.active.value.transaction].state.Restored? && !w.active.value.snapshot.layout.Absent? ==>
              w.retained[w.active.value.transaction].evidence.Some?
  {
    hide IsPrior, IsPriorUnder, Held, PanelsOk, OnePerPanel;
    assert RetainedOk(w, w.active.value.transaction);
  }
}
