/** What the two durable stores hold: the one active journal record and the retained rollbacks. */
module Records {
  import opened Common
  import opened PanelState

  datatype Operation = Install | Upgrade | Update | ManualRollback | OnboardingRollback

  datatype Phase = Staged | ActivationPending | Activated | Verifying | PendingConfigCommit | Committed
                 | RollbackPending | RolledBack

  /** The phase edges a plain transition may take; the three terminal phases have methods of their own. */
  function Transitions(phase: Phase): set<Phase> {
    match phase
    case Staged => {ActivationPending, RollbackPending}
    case ActivationPending => {Activated, RollbackPending}
    case Activated => {Verifying, RollbackPending}
    case Verifying => {PendingConfigCommit, RollbackPending}
    case PendingConfigCommit => {RollbackPending}
    case Committed => {}
    case RollbackPending => {}
    case RolledBack => {}
  }

  type Fingerprint = string

  const CredentialPlaceholder: string := "resolve_from_panel_configuration"

  datatype Request = Request(
    host: string,
    password: string,
    publicKey: string,
    fingerprint: Fingerprint,
    slug: string,
    components: set<Component>)

  datatype Record = Record(
    transaction: Uuid,
    operation: Operation,
    phase: Phase,
    setup: Uuid,
    request: Request,
    version: string,
    snapshot: Snapshot,
    startedAt: int,
    error: Option<string>)
  {
    function Candidate(): StagedRelease { StagedRelease(version, transaction, request.components) }

    function Dir(): Target { Candidate().Dir() }

    function Panel(): Fingerprint { request.fingerprint }
  }

  datatype RetainedState = Armed | Soak | RestoreRequested | Restored | Finalizing | RollbackFailed

  /** The edges a retained state may take; staying put is always allowed. */
  function RetainedEdges(state: RetainedState): set<RetainedState> {
    match state
    case Armed => {Soak, RestoreRequested, Finalizing, Restored, RollbackFailed}
    case Soak => {RestoreRequested, Finalizing}
    case RestoreRequested => {Restored, RollbackFailed}
    case RollbackFailed => {RestoreRequested, Restored, Finalizing}
    case Restored => {RestoreRequested, Finalizing, RollbackFailed}
    case Finalizing => {}
  }

  /** `evidence` is the deployment whose health proved a restore; `ownerless` the finalization origin. */
  datatype Retained = Retained(record: Record, state: RetainedState, evidence: Option<Uuid>, ownerless: bool)

  /** A retained record never holds the panel password. */
  function Scrub(record: Record): Record {
    record.(request := record.request.(password := CredentialPlaceholder))
  }

  predicate Onboarding(operation: Operation) { operation.Install? || operation.Upgrade? }

  /** The active record is this retained transaction, whatever it has gone through since. */
  predicate SameTransaction(current: Record, record: Record) {
    Scrub(current).(operation := record.operation, phase := record.phase, error := record.error) == record
  }

  /** The password of the matching active onboarding journal, and of no other. */
  function CompensationPassword(e: Retained, current: Option<Record>): Option<string> {
    if current.None? || !Onboarding(e.record.operation) then None
    else
      var r := current.value;
      if (if r.operation.OnboardingRollback?
          then (e.state.RestoreRequested? || e.state.Restored? || e.state.RollbackFailed?)
               && (r.phase.RollbackPending? || r.phase.RolledBack?)
          else r.operation == e.record.operation && e.state.RestoreRequested?
               && !r.phase.Committed? && !r.phase.RolledBack?)
         && SameTransaction(r, e.record)
      then Some(r.request.password)
      else None
  }

  predicate Proven(e: Retained) { e.record.snapshot.layout.Absent? || e.evidence.Some? }

  predicate OwnerlessFinalizationAllowed(e: Retained) {
    && Onboarding(e.record.operation)
    && (e.state.Restored? || (e.state.Finalizing? && e.ownerless))
    && Proven(e)
  }

  /** What the operator confirmed of a journal; its error and its password may have changed since. */
  predicate SameJournal(current: Record, expected: Record) {
    Scrub(current).(error := expected.error, startedAt := expected.startedAt) == Scrub(expected)
  }

  predicate OwnerlessRecoveryAllowed(r: Record, e: Retained) {
    && (|| ((e.state.Armed? || e.state.RestoreRequested? || e.state.RollbackFailed?) && !r.phase.RolledBack?)
        || (e.state.Restored? && (r.phase.RollbackPending? || r.phase.RolledBack?) && Proven(e)))
    && (Onboarding(r.operation) || r.operation.OnboardingRollback?)
    && !r.phase.Committed?
    && e.record.transaction == r.transaction
    && Onboarding(e.record.operation)
    && e.record.request.publicKey == r.request.publicKey
    && e.record.request.fingerprint == r.request.fingerprint
    && !e.ownerless
  }

  /** The journal record a restore runs under. */
  function RestoreRecord(e: Retained, current: Option<Record>, password: string): Record {
    e.record.(operation := if CompensationPassword(e, current).Some? then OnboardingRollback else ManualRollback,
              phase := RollbackPending,
              request := e.record.request.(password := password))
  }

  // ----- who is compensated, and with which password -----

  /** The journal a retained record was armed for, however far it has come: an onboarding that is asked back
      before it was committed or rolled back is compensated with its own password, and nothing else is. */
  lemma OwnJournalCompensates(record: Record, current: Record, e: Retained)
    requires e.record == Scrub(record) && current == record.(phase := current.phase, error := current.error)
    requires record.operation.Install? || record.operation.Upgrade? || record.operation.Update?
    ensures CompensationPassword(e, Some(current))
         == if !record.operation.Update? && e.state.RestoreRequested? && !current.phase.Committed?
               && !current.phase.RolledBack?
            then Some(record.request.password) else None
  {
    hide Onboarding;
    OnboardingIs(record.operation);
  }

  lemma OnboardingIs(operation: Operation)
    ensures Onboarding(operation) <==> operation.Install? || operation.Upgrade?
  {
  }

  /** Where nothing, or the journal of another transaction, is active, there is no password to take over: the
      restore is the operator's. */
  lemma NoOtherCompensates(e: Retained, current: Option<Record>, password: string)
    requires current.None? || current.value.transaction != e.record.transaction
    ensures CompensationPassword(e, current).None?
    ensures RestoreRecord(e, current, password).operation.ManualRollback?
  {
  }

  /** The journal of a compensation is taken up again under the password it was started with, whatever
      became of its retained state, and asking again with that password changes nothing. */
  lemma CompensationResumes(record: Record, current: Record, e: Retained, password: string)
    requires e.record == Scrub(record) && current == record.(phase := current.phase, error := current.error)
    requires (record.operation.Install? || record.operation.Upgrade?) && e.state.RestoreRequested?
    requires !current.phase.Committed? && !current.phase.RolledBack?
    ensures var r := RestoreRecord(e, Some(current), password);
            && r == record.(operation := OnboardingRollback, phase := RollbackPending,
                            request := record.request.(password := password))
            && RestoreRecord(e, Some(r), password) == r
            && forall state :: state in {RestoreRequested, Restored, RollbackFailed} ==>
                 CompensationPassword(e.(state := state), Some(r)) == Some(password)
  {
    OwnJournalCompensates(record, current, e);
  }
}
