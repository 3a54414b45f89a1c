/**
 * The provisioning transaction as a state machine over its durable effects. A world is what survives
 * a crash: the active journal record, the retained rollbacks and the panels. Every store write and
 * every shell step is one `Step`; a step is enabled by what the journal checks and by what the
 * provisioner has just established on the panel, and other writers may act on any panel at any moment.
 * A run may stop after any step: each of its worlds is a crash state, and recovery is simply more steps.
 */
module Protocol {
  import opened Common
  import opened PanelState
  import opened Rollback
  import opened PanelCommands
  import opened Records

  /** `observed` records every deployment whose health some observer has confirmed, with what the panels
      were then. `disturbed` says that some other writer has acted on the active transaction's panel
      since the transaction last established what is on it. */
  datatype World = World(
    active: Option<Record>,
    retained: map<Uuid, Retained>,
    panels: map<Fingerprint, Panel>,
    observed: map<Uuid, map<Fingerprint, Panel>>,
    disturbed: bool)

  datatype Step =
    | Arm(record: Record)
    | SaveStaged(record: Record)
    | SaveTransition(phase: Phase, error: Option<string>)
    | SaveError(error: Option<string>)
    | SaveRetained(transaction: Uuid, state: RetainedState, evidence: Option<Uuid>)
    | SaveRestore(transaction: Uuid, password: string)
    | SaveCommitted
    | SaveRolledBack
    | Clear
    | MarkOwnerless(transaction: Uuid)
    | RemoveRetained(transaction: Uuid)
    | Shell(panel: Fingerprint, cmd: Cmd)
    | Torn(panel: Fingerprint, cmd: Cmd, wreck: Trees)
    | Outside(panel: Fingerprint, cmd: Cmd, cut: Option<Trees>)
    | Observe(deployment: Uuid)

  // ----- what a panel looks like -----

  /** The live state reads as the snapshot, and the code is what the baseline captured. */
  ghost predicate IsPrior(p: Panel, s: Snapshot) {
    s.baseline.Some? && Probe(p) == s.(baseline := None) && p.trees == s.baseline.value.capture.trees
  }

  /** The prior state again, but for the bridge's deployment correlation line. */
  ghost predicate IsPriorUnder(p: Panel, s: Snapshot, deployment: Uuid) {
    && s.baseline.Some? && EnvFile in s.files
    && Probe(p) == Correlated(s, deployment).(baseline := None)
    && p.trees == s.baseline.value.capture.trees
  }

  predicate Gone(p: Panel, dir: Target) { dir !in p.releases && dir !in p.uploads }

  /** The unit files a candidate installs: the bridge always, a watchdog when selected. */
  predicate Installs(staged: StagedRelease, path: Owned) {
    path.Unit? ==> path.component == Bridge || path.component in staged.selected
  }

  /** Exactly the candidate is in place; whether the bridge runs at this moment is left open, since
      a recovery restarts it and may be cut in between. */
  ghost predicate RunsCandidate(p: Panel, staged: StagedRelease) {
    && p.link == Some(staged.Dir())
    && staged.Dir() in p.releases
    && (forall path: Owned :: path in p.files <==> Installs(staged, path))
    && (forall path: Owned :: Installs(staged, path) ==>
          path in p.releases[staged.Dir()].files
          && p.files[path] == File(p.releases[staged.Dir()].files[path], CandidateMode(path)))
    && p.loaded == Units(p.files)
    && p.enabled == staged.selected
    && p.active - {Bridge} == staged.selected - {Bridge}
    && Launched(p)
  }

  /** What an activated transaction has on its panel: its candidate, or for an update exactly what the
      panel was when its health was observed. */
  ghost predicate Shown(w: World, r: Record, p: Panel) {
    if r.operation.Update?
    then r.transaction in w.observed && r.Panel() in w.observed[r.transaction]
      && p == w.observed[r.transaction][r.Panel()]
    else RunsCandidate(p, r.Candidate())
  }

  // ----- which panel steps are allowed when -----

  predicate OnCandidate(cmd: Cmd, dir: Target) {
    || cmd == PrepareUpload(dir) || (cmd.Upload? && cmd.dir == dir) || cmd == CheckUpload(dir) || cmd == Promote(dir)
    || cmd == RemoveUpload(dir) || cmd == Prune(dir)
  }

  predicate Discards(cmd: Cmd, dir: Target) { cmd == RemoveUpload(dir) || cmd == Prune(dir) }

  predicate Restarts(cmd: Cmd, dir: Target) {
    cmd == CheckLinkIs(dir) || cmd == Stop(Bridge) || cmd == Start(Bridge) || cmd == CheckRunning(Bridge)
  }

  /** What the provisioner itself may do. While a predecessor is being restored the candidate stays until
      the restore is durably proved. With no transaction on a panel others may write to it, but a capture
      is only ever deleted, and a release only ever pruned, by the transaction that owns it. */
  ghost predicate Permitted(w: World, panel: Fingerprint, cmd: Cmd) {
    if w.active.None? || w.active.value.Panel() != panel then
      || Gentle(cmd, if cmd.MoveLinkTemp? then Some(cmd.dir) else None)
      || cmd.CaptureBaseline?
      || (cmd.FinalizeBaseline?
          && exists t :: t in w.retained && FinalizedBy(w.retained[t], panel, cmd.id))
    else
      var r := w.active.value;
      match r.phase
      case Staged => OnCandidate(cmd, r.Dir())
      case ActivationPending => Gentle(cmd, Some(r.Dir())) || Discards(cmd, r.Dir())
      case Activated => !r.operation.Update? && Restarts(cmd, r.Dir())
      case Verifying => !r.operation.Update? && Restarts(cmd, r.Dir())
      case RollbackPending =>
        r.transaction in w.retained
        && (match w.retained[r.transaction].state
            case RestoreRequested =>
              Gentle(cmd, r.snapshot.target) || (r.snapshot.layout.Absent? && Discards(cmd, r.Dir()))
            case Restored => Discards(cmd, r.Dir())
            case _ => false)
      case _ => false
  }

  predicate FinalizedBy(e: Retained, panel: Fingerprint, id: Uuid) {
    e.state.Finalizing? && e.record.Panel() == panel && e.record.snapshot.baseline.Some?
      && e.record.snapshot.baseline.value.id == id
  }

  predicate LinksKnown(p: Panel, cmd: Cmd) { cmd.MoveLinkTemp? ==> cmd.dir in p.releases }

  // ----- steps -----

  ghost predicate Fresh(w: World, r: Record) {
    && r.transaction !in w.retained
    && r.transaction !in w.observed
    && (r.Panel() in w.panels ==> r.Dir() !in w.panels[r.Panel()].releases)
  }

  ghost predicate ActiveOnPanel(w: World) {
    && w.active.Some?
    && w.active.value.Panel() in w.panels
    && w.active.value.transaction in w.retained
  }

  ghost predicate MayTransition(w: World, phase: Phase) {
    && ActiveOnPanel(w)
    && var r := w.active.value;
       var p := w.panels[r.Panel()];
       && phase in Transitions(r.phase)
       && (phase.Activated? ==> Shown(w, r, p))
       && (phase.Verifying? ==> r.transaction in w.observed)
       && (phase.RollbackPending? ==> !r.phase.PendingConfigCommit?)
  }

  predicate IsActive(w: World, t: Uuid) { w.active.Some? && w.active.value.transaction == t }

  /** Saving restored over restored proves nothing new. */
  predicate Reaffirms(w: World, t: Uuid, state: RetainedState, evidence: Option<Uuid>) {
    t in w.retained && state.Restored? && w.retained[t].state.Restored? && evidence.None?
  }

  ghost predicate MayRetain(w: World, t: Uuid, state: RetainedState, evidence: Option<Uuid>) {
    && t in w.retained
    && var e := w.retained[t];
       && (state == e.state || state in RetainedEdges(e.state))
       && (!state.Restored? ==> evidence.None?)
       && match state
          case Armed => true
          case Soak => IsActive(w, t) && w.active.value.phase.PendingConfigCommit?
          case RestoreRequested => w.active.None? || IsActive(w, t)
          case Restored =>
            && ActiveOnPanel(w) && IsActive(w, t) && w.active.value.phase.RollbackPending?
            && (Reaffirms(w, t, state, evidence)
                || var p := w.panels[w.active.value.Panel()];
                   var s := e.record.snapshot;
                   if s.layout.Absent? then IsPrior(p, s) && Gone(p, e.record.Dir()) && evidence.None?
                   else evidence.Some? && evidence.value in w.observed && IsPriorUnder(p, s, evidence.value))
          case RollbackFailed =>
            w.active.None?
              || (IsActive(w, t) && (w.active.value.phase.RollbackPending? || w.active.value.phase.RolledBack?))
          case Finalizing => w.active.None? || e.state.Finalizing?
  }

  ghost predicate MayClear(w: World) {
    && ActiveOnPanel(w)
    && var r := w.active.value;
       var e := w.retained[r.transaction];
       match r.phase
       case Committed => true
       case RolledBack => e.state.Restored? && e.evidence.Some?
       case Staged => Gone(w.panels[r.Panel()], r.Dir())
       case RollbackPending => r.snapshot.layout.Absent? && e.state.Restored?
       case _ => false
  }

  /** What a step needs in order to be carried out at all, allowed or not. */
  predicate Defined(w: World, step: Step) {
    match step
    case SaveTransition(_, _) => w.active.Some?
    case SaveError(_) => w.active.Some?
    case SaveRetained(t, _, _) => t in w.retained
    case SaveRestore(t, _) => t in w.retained
    case SaveCommitted => w.active.Some?
    case SaveRolledBack => w.active.Some?
    case MarkOwnerless(t) => t in w.retained
    case Shell(panel, cmd) => panel in w.panels && Apply(cmd, w.panels[panel]).Some?
    case Torn(panel, _, _) => panel in w.panels
    case Outside(panel, cmd, wreck) => panel in w.panels && (wreck.None? ==> Apply(cmd, w.panels[panel]).Some?)
    case _ => true
  }

  ghost predicate Enabled(w: World, step: Step)
    ensures Enabled(w, step) ==> Defined(w, step)
  {
    match step
    case Arm(record) =>
      && w.active.None? && record.phase.Staged? && (Onboarding(record.operation) || record.operation.Update?)
      && Fresh(w, record)
      && (forall t :: t in w.retained ==> w.retained[t].record.Panel() != record.Panel())
      && record.Panel() in w.panels && Sound(record.snapshot)
      && Held(w.panels[record.Panel()], record.snapshot) && IsPrior(w.panels[record.Panel()], record.snapshot)
    case SaveStaged(record) =>
      && w.active.None? && record.phase.Staged?
      && record.transaction in w.retained && record.transaction !in w.observed
      && w.retained[record.transaction] == Retained(Scrub(record), Armed, None, false)
      && record.Panel() in w.panels && IsPrior(w.panels[record.Panel()], record.snapshot)
      && record.Dir() !in w.panels[record.Panel()].releases
    case SaveTransition(phase, error) => MayTransition(w, phase)
    case SaveError(error) => w.active.Some?
    case SaveRetained(t, state, evidence) => MayRetain(w, t, state, evidence)
    case SaveRestore(t, password) =>
      t in w.retained && w.retained[t].state.RestoreRequested? && (w.active.None? || IsActive(w, t))
    case SaveCommitted =>
      && ActiveOnPanel(w) && w.active.value.phase.PendingConfigCommit?
      && w.retained[w.active.value.transaction].state.Soak?
    case SaveRolledBack =>
      && ActiveOnPanel(w) && w.active.value.phase.RollbackPending? && !w.active.value.snapshot.layout.Absent?
      && w.retained[w.active.value.transaction].state.Restored?
      && Gone(w.panels[w.active.value.Panel()], w.active.value.Dir())
    case Clear => MayClear(w)
    case MarkOwnerless(t) => w.active.None? && t in w.retained && OwnerlessFinalizationAllowed(w.retained[t])
    case RemoveRetained(t) =>
      && t in w.retained && w.retained[t].state.Finalizing?
      && var e := w.retained[t];
         e.record.Panel() in w.panels && e.record.snapshot.baseline.Some?
         && e.record.snapshot.baseline.value.id !in w.panels[e.record.Panel()].baselines
    case Shell(panel, cmd) =>
      && panel in w.panels && Permitted(w, panel, cmd) && LinksKnown(w.panels[panel], cmd)
      && Apply(cmd, w.panels[panel]).Some?
    case Torn(panel, cmd, wreck) =>
      panel in w.panels && Permitted(w, panel, cmd) && (cmd.RestoreBaseline? || cmd.WriteTrees?)
    case Outside(panel, cmd, wreck) =>
      && panel in w.panels && Gentle(cmd, None)
      && (if wreck.Some? then cmd.WriteTrees? else Apply(cmd, w.panels[panel]).Some?)
    case Observe(deployment) => true
  }

  /** Reaching activated establishes what is on the panel. */
  function Advance(w: World, phase: Phase, error: Option<string>): World
    requires w.active.Some?
  {
    w.(active := Some(w.active.value.(phase := phase, error := error)), disturbed := w.disturbed && !phase.Activated?)
  }

  /** So does a restore that is proved now. */
  function Retain(w: World, t: Uuid, state: RetainedState, evidence: Option<Uuid>): World
    requires t in w.retained
  {
    var e := w.retained[t];
    w.(retained := w.retained[t := e.(state := state, evidence := if evidence.Some? then evidence else e.evidence)],
       disturbed := w.disturbed && (!state.Restored? || Reaffirms(w, t, state, evidence)))
  }

  function Do(w: World, step: Step): World
    requires Defined(w, step)
  {
    match step
    case Arm(record) => w.(retained := w.retained[record.transaction := Retained(Scrub(record), Armed, None, false)])
    case SaveStaged(record) => w.(active := Some(record), disturbed := false)
    case SaveTransition(phase, error) => Advance(w, phase, error)
    case SaveError(error) => w.(active := Some(w.active.value.(error := error)))
    case SaveRetained(t, state, evidence) => Retain(w, t, state, evidence)
    case SaveRestore(t, password) => w.(active := Some(RestoreRecord(w.retained[t], w.active, password)))
    case SaveCommitted => w.(active := Some(w.active.value.(phase := Committed)))
    case SaveRolledBack => w.(active := Some(w.active.value.(phase := RolledBack)))
    case Clear => w.(active := None)
    case MarkOwnerless(t) => w.(retained := w.retained[t := w.retained[t].(state := Finalizing, ownerless := true)])
    case RemoveRetained(t) => w.(retained := w.retained - {t})
    case Shell(panel, cmd) => w.(panels := w.panels[panel := Apply(cmd, w.panels[panel]).value])
    case Torn(panel, cmd, wreck) => w.(panels := w.panels[panel := w.panels[panel].(trees := wreck)])
    case Outside(panel, cmd, wreck) =>
      var p := w.panels[panel];
      w.(panels := w.panels[panel := if wreck.Some? then p.(trees := wreck.value) else Apply(cmd, p).value],
         disturbed := w.disturbed || (w.active.Some? && w.active.value.Panel() == panel))
    case Observe(deployment) => w.(observed := w.observed[deployment := w.panels])
  }

  ghost predicate Next(w: World, v: World) { exists step :: Enabled(w, step) && v == Do(w, step) }

  /** Consecutive worlds of a run differ by one step. */
  ghost predicate Run(worlds: seq<World>) {
    |worlds| > 0 && forall i :: 0 < i < |worlds| ==> Next(worlds[i - 1], worlds[i])
  }
}
