/**
 * The provisioner: install with compensation, managed update, recovery after a crash, operator
 * rollback and finalization. Each method's history is a run of the protocol, so whatever moment it is
 * cut at, the safety results hold there; a calm site shows what it achieves when nothing disturbs it.
 */
module Provisioner {
  import opened Common
  import opened PanelState
  import opened PanelCommands
  import opened Rollback
  import opened Records
  import opened Protocol
  import opened Safety
  import opened DurableSite
  import opened Journal
  import opened Operations
  import opened Activation

  // ----- fresh identifiers -----

  lemma {:induction false} Bound(used: set<Uuid>) returns (n: Uuid)
    ensures forall id :: id in used ==> id < n
  {
    if used == {} {
      n := 0;
    } else {
      var x :| x in used;
      var m := Bound(used - {x});
      n := if x < m then m else x + 1;
      forall id | id in used ensures id < n { if id != x { assert id in used - {x}; } }
    }
  }

  /** A random identifier occurs nowhere yet. */
  method NewId(used: set<Uuid>) returns (id: Uuid)
    ensures id !in used
  {
    ghost var n := Bound(used);
    assert n !in used;
    id :| id !in used;
  }

  /** The active transaction has a restore request that its journal record does not show yet. */
  ghost predicate RestoreIntended(w: World) {
    ActiveOnPanel(w) && w.retained[w.active.value.transaction].state.RestoreRequested?
      && !w.active.value.phase.RollbackPending?
  }

  /** What stands in the way of settling the active record is checked before anything starts: a
      rolled-back journal whose restore is no longer recorded as verified, or a pinned candidate. */
  ghost predicate Recoverable(w: World)
    requires ActiveOnPanel(w)
  {
    var r := w.active.value;
    match r.phase
    case RolledBack => w.retained[r.transaction].state.Restored?
    case RollbackPending => Unpinned(w.panels[r.Panel()], r.Dir())
    case _ => true
  }

  predicate Intent(w: World, t: Uuid) { t in w.retained && w.retained[t].state.RestoreRequested? }

  ghost predicate PinnedCandidate(w: World, t: Uuid)
    requires t in w.retained
  {
    var r := w.retained[t].record;
    r.Panel() in w.panels && !Unpinned(w.panels[r.Panel()], r.Dir())
  }

  /** What a recovery cannot get past, readable from the stores and the panel beforehand. */
  ghost predicate Blocked(w: World) {
    || (exists t :: t in w.retained && w.retained[t].state.Finalizing? && w.retained[t].ownerless)
    || (exists t :: Intent(w, t) && w.active.Some? && !IsActive(w, t))
    || (exists t, u :: Intent(w, t) && Intent(w, u) && t != u)
    || (exists t :: Intent(w, t) && PinnedCandidate(w, t))
    || (ActiveOnPanel(w) && !Intent(w, w.active.value.transaction) && !Recoverable(w))
  }

  ghost predicate EntriesSettled(w: World, v: World, todo: set<Uuid>) {
    && (forall t :: t in v.retained ==> t in w.retained && v.retained[t] == w.retained[t])
    && (forall t :: t in w.retained && t !in v.retained ==> w.retained[t].state.Finalizing? && t !in todo)
    && (forall t :: t in w.retained && t !in todo ==> !(w.retained[t].state.Finalizing? && w.retained[t].ownerless))
  }

  ghost predicate PanelsSettled(w: World, v: World) {
    forall t :: t in w.retained && !w.retained[t].state.Finalizing? ==>
      var panel := w.retained[t].record.Panel();
      panel in w.panels && panel in v.panels && v.panels[panel] == w.panels[panel]
  }

  ghost predicate IntentSettled(w: World, active: Option<Record>, todo: set<Uuid>, taken: Option<Uuid>) {
    && (forall t :: Intent(w, t) && t !in todo ==> taken == Some(t))
    && (if taken.None? then active == w.active
        else Intent(w, taken.value) && taken.value !in todo && (w.active.None? || IsActive(w, taken.value))
             && active.Some? && active.value.transaction == taken.value && active.value.phase.RollbackPending?
             && active.value.Dir() == w.retained[taken.value].record.Dir()
             && active.value.Panel() == w.retained[taken.value].record.Panel())
  }

  /** How far the intents of `w` are settled in `v`, with `todo` still to be looked at. */
  ghost predicate Settled(w: World, v: World, todo: set<Uuid>, taken: Option<Uuid>) {
    EntriesSettled(w, v, todo) && PanelsSettled(w, v) && IntentSettled(w, v.active, todo, taken)
  }

  lemma SettledStart(w: World)
    requires Inv(w)
    ensures Settled(w, w, w.retained.Keys, None)
    ensures forall t :: t in w.retained ==> w.retained[t].record.transaction == t
  {
    hide ActiveOk, OnePerPanel, PanelsOk, Sound, Held;
    forall t | t in w.retained
      ensures w.retained[t].record.transaction == t && w.retained[t].record.Panel() in w.panels
    {
      assert RetainedOk(w, t);
    }
  }

  lemma EntriesFinalize(w: World, b: World, v: World, todo: set<Uuid>, t: Uuid)
    requires EntriesSettled(w, b, todo) && t in w.retained && v.retained == b.retained - {t}
    requires w.retained[t].state.Finalizing? && !w.retained[t].ownerless
    ensures EntriesSettled(w, v, todo - {t})
  {
  }

  lemma PanelsFinalize(w: World, b: World, v: World, panel: Fingerprint)
    requires PanelsSettled(w, b) && panel in v.panels && v.panels == b.panels[panel := v.panels[panel]]
    requires forall u :: u in w.retained && !w.retained[u].state.Finalizing? ==> w.retained[u].record.Panel() != panel
    ensures PanelsSettled(w, v)
  {
  }

  lemma SettledFinalize(w: World, b: World, v: World, todo: set<Uuid>, taken: Option<Uuid>, t: Uuid)
    requires Inv(w) && Settled(w, b, todo, taken) && t in todo && t in w.retained
    requires w.retained[t].state.Finalizing? && !w.retained[t].ownerless
    requires var panel := w.retained[t].record.Panel();
             panel in b.panels && panel in v.panels
             && v == b.(retained := b.retained - {t}, panels := b.panels[panel := v.panels[panel]])
    ensures Settled(w, v, todo - {t}, taken)
  {
    hide Inv, EntriesSettled, PanelsSettled;
    OtherPanels(w, t);
    EntriesFinalize(w, b, v, todo, t);
    PanelsFinalize(w, b, v, w.retained[t].record.Panel());
  }

  lemma EntriesBegin(w: World, b: World, v: World, todo: set<Uuid>, t: Uuid)
    requires EntriesSettled(w, b, todo) && t in w.retained && v.retained == b.retained && t in b.retained
    requires !w.retained[t].state.Finalizing?
    ensures EntriesSettled(w, v, todo - {t}) && b.retained[t] == w.retained[t]
  {
  }

  lemma IntentBegin(w: World, active: Option<Record>, todo: set<Uuid>, taken: Option<Uuid>, t: Uuid, next: Record)
    requires IntentSettled(w, active, todo, taken) && t in todo && Intent(w, t)
    requires active.None? || active.value.transaction == t
    requires next.transaction == t && next.phase.RollbackPending?
    requires next.Dir() == w.retained[t].record.Dir() && next.Panel() == w.retained[t].record.Panel()
    ensures IntentSettled(w, Some(next), todo - {t}, Some(t))
  {
  }

  lemma RestoreRecordIs(e: Retained, current: Option<Record>, password: string)
    ensures var r := RestoreRecord(e, current, password);
            r.transaction == e.record.transaction && r.phase.RollbackPending? && r.Dir() == e.record.Dir()
              && r.Panel() == e.record.Panel()
  {
  }

  lemma SettledBegin(w: World, b: World, v: World, todo: set<Uuid>, taken: Option<Uuid>, t: Uuid, password: string)
    requires Inv(w) && Settled(w, b, todo, taken) && t in todo && Intent(w, t)
    requires ProvisioningJournal.MayBeginRestore(b, t)
    requires v == b.(active := Some(RestoreRecord(b.retained[t], b.active, password)))
    ensures Settled(w, v, todo - {t}, Some(t))
  {
    hide Inv, EntriesSettled, IntentSettled, RestoreRecord;
    SettledStart(w);
    EntriesBegin(w, b, v, todo, t);
    RestoreRecordIs(b.retained[t], b.active, password);
    IntentBegin(w, b.active, todo, taken, t, v.active.value);
  }

  lemma SettledSkip(w: World, b: World, todo: set<Uuid>, taken: Option<Uuid>, t: Uuid)
    requires Settled(w, b, todo, taken) && t in todo && t in w.retained
    requires !w.retained[t].state.Finalizing? && !w.retained[t].state.RestoreRequested?
    ensures Settled(w, b, todo - {t}, taken)
  {
  }

  lemma BeginBlocked(w: World, b: World, todo: set<Uuid>, taken: Option<Uuid>, t: Uuid)
    requires Settled(w, b, todo, taken) && t in todo && Intent(w, t) && !ProvisioningJournal.MayBeginRestore(b, t)
    ensures Blocked(w)
  {
    assert t in b.retained;
    assert Intent(w, t);
    if taken.Some? { assert Intent(w, taken.value) && taken.value != t; }
  }

  lemma OwnerlessBlocks(w: World, t: Uuid)
    requires t in w.retained && w.retained[t].state.Finalizing? && w.retained[t].ownerless
    ensures Blocked(w)
  {
  }

  lemma StillThere(w: World, v: World, todo: set<Uuid>, taken: Option<Uuid>, t: Uuid)
    requires Settled(w, v, todo, taken) && t in todo && t in w.retained
    ensures t in v.retained && v.retained[t] == w.retained[t]
  {
  }

  lemma NoIntentLeft(w: World, v: World)
    requires Settled(w, v, {}, None)
    ensures forall t :: !Intent(w, t)
    ensures forall t :: t in w.retained ==> !(w.retained[t].state.Finalizing? && w.retained[t].ownerless)
    ensures v.active == w.active
    ensures forall t :: t in w.retained && !w.retained[t].state.Finalizing? ==>
              t in v.retained && v.retained[t] == w.retained[t]
  {
  }

  lemma OneIntentLeft(w: World, v: World, t: Uuid)
    requires Settled(w, v, {}, Some(t))
    ensures forall u :: Intent(w, u) <==> u == t
    ensures forall u :: u in w.retained ==> !(w.retained[u].state.Finalizing? && w.retained[u].ownerless)
  {
  }

  lemma SamePanelSettled(w: World, v: World, t: Uuid)
    requires PanelsSettled(w, v) && t in w.retained && !w.retained[t].state.Finalizing?
    ensures w.retained[t].record.Panel() in w.panels && w.retained[t].record.Panel() in v.panels
    ensures v.panels[w.retained[t].record.Panel()] == w.panels[w.retained[t].record.Panel()]
  {
  }

  lemma BlockedAfterNone(w: World, v: World)
    requires Inv(w) && Inv(v) && Settled(w, v, {}, None)
    ensures v.active.None? ==> !Blocked(w)
    ensures v.active.Some? ==> ActiveOnPanel(v) && !RestoreIntended(v) && (Recoverable(v) <==> !Blocked(w))
  {
    hide Inv, EntriesSettled, PanelsSettled, Unpinned, Sound, Held, PanelWf, Fits, PinnedCandidate;
    NoIntentLeft(w, v);
    if v.active.Some? {
      ActiveFacts(w);
      SamePanelSettled(w, v, w.active.value.transaction);
      assert !Intent(w, w.active.value.transaction);
    }
  }

  lemma BlockedAfterTaken(w: World, v: World, t: Uuid)
    requires Inv(w) && Inv(v) && Settled(w, v, {}, Some(t))
    ensures v.active.Some? && ActiveOnPanel(v) && !RestoreIntended(v) && (Recoverable(v) <==> !Blocked(w))
  {
    hide Inv, EntriesSettled, PanelsSettled, Unpinned, Sound, Held, PanelWf, Fits;
    OneIntentLeft(w, v, t);
    ActiveFacts(v);
    SamePanelSettled(w, v, t);
    assert Intent(w, t);
    assert PinnedCandidate(w, t) <==> !Recoverable(v);
  }

  lemma BlockedAfter(w: World, v: World, taken: Option<Uuid>)
    requires Inv(w) && Inv(v) && Settled(w, v, {}, taken)
    ensures v.active.None? ==> !Blocked(w)
    ensures v.active.Some? ==> ActiveOnPanel(v) && !RestoreIntended(v) && (Recoverable(v) <==> !Blocked(w))
  {
    hide Inv, Settled, Blocked, Recoverable;
    if taken.None? { BlockedAfterNone(w, v); } else { BlockedAfterTaken(w, v, taken.value); }
  }

  /** Finalizing one transaction leaves every other transaction's panel alone. */
  lemma OtherPanels(w: World, t: Uuid)
    requires Inv(w) && t in w.retained && w.retained[t].state.Finalizing?
    ensures forall u :: u in w.retained && !w.retained[u].state.Finalizing? ==>
              w.retained[u].record.Panel() != w.retained[t].record.Panel()
  {
    hide ActiveOk, PanelsOk, AllRetainedOk;
    forall u | u in w.retained && !w.retained[u].state.Finalizing?
      ensures w.retained[u].record.Panel() != w.retained[t].record.Panel()
    {
      assert u != t;
    }
  }

  lemma CommitAllowed(w: World)
    requires Inv(w) && w.active.Some? && w.active.value.phase.PendingConfigCommit?
    ensures ActiveOnPanel(w)
    ensures ProvisioningJournal.MayMove(w, w.active.value.transaction, Soak) <==> !RestoreIntended(w)
    ensures w.active.value.snapshot.baseline.Some?
  {
    hide PanelsOk, OnePerPanel, AllRetainedOk, Facts;
    ActiveHasBaseline(w);
  }

  lemma FinalizingFacts(w: World, e: Retained)
    requires Inv(w) && e.record.transaction in w.retained
    requires w.retained[e.record.transaction].state.Finalizing? && w.retained[e.record.transaction].record == e.record
    ensures e.record.Panel() in w.panels && e.record.snapshot.baseline.Some?
    ensures w.active.Some? ==> w.active.value.Panel() != e.record.Panel()
    ensures Permitted(w, e.record.Panel(), FinalizeBaseline(e.record.snapshot.baseline.value.id))
  {
    hide PanelsOk, Facts, Held;
    assert RetainedOk(w, e.record.transaction);
    if w.active.Some? { ActiveFacts(w); }
    assert FinalizedBy(w.retained[e.record.transaction], e.record.Panel(), e.record.snapshot.baseline.value.id);
  }

  lemma ActiveIsItself(w: World)
    requires w.active.Some?
    ensures IsActive(w, w.active.value.transaction)
  {
  }

  lemma FinalizeRuns(p: Panel, id: Uuid)
    ensures Apply(FinalizeBaseline(id), p).Some? && id !in Apply(FinalizeBaseline(id), p).value.baselines
  {
  }

  datatype Lookup = FlowPending | Matched | AbortedOrAbsent

  // ----- how a transaction ends -----

  /** Rolled back: the journal is clear, the panel back on its prior state, the restore proved. */
  ghost predicate Undone(w: World, r: Record) {
    w.active.None? && r.transaction in w.retained && r.Panel() in w.panels
      && Back(r, w.retained[r.transaction], w.panels[r.Panel()])
  }

  /** The evidence of the restore is the health of a deployment nobody had observed before. */
  predicate FreshlyProved(v: World, w: World, t: Uuid) {
    t in w.retained && w.retained[t].evidence.Some?
    && w.retained[t].evidence.value !in v.observed && w.retained[t].evidence.value in w.observed
  }

  /** A rollback that failed says so in both stores, and stays the active journal, with the password it was
      given and nothing else that the retained record did not hold. */
  ghost predicate FailureRecorded(w: World, t: Uuid, password: string) {
    && IsActive(w, t) && w.active.value.phase.RollbackPending? && w.active.value.error == Some("rollback_failed")
    && t in w.retained && w.retained[t].state.RollbackFailed?
    && var r := w.retained[t].record;
       w.active.value == r.(phase := RollbackPending, error := Some("rollback_failed"),
                            operation := w.active.value.operation, request := r.request.(password := password))
  }

  /** Cleaned up: nothing was ever activated, and unless disturbed the panel is as it was captured. */
  ghost predicate Untouched(w: World, r: Record, disturbed: bool) {
    w.active.None? && r.Panel() in w.panels && EndedUntouched(r, w.panels[r.Panel()], disturbed)
  }

  /** Committed: the rollback soaks, the journal is clear, nothing else changed. */
  ghost predicate Soaked(v: World, w: World, t: Uuid) {
    ProvisioningJournal.MayMove(v, t, Soak) && w == Retain(v, t, Soak, None).(active := None)
  }

  /** Verified again: handed to the pending flow, or committed to the one that matched. */
  ghost predicate Promoted(w: World, r: Record, last: Lookup) {
    && r.transaction in w.observed && r.transaction in w.retained && r.Panel() in w.panels
    && (w.disturbed || RunsCandidate(w.panels[r.Panel()], r.Candidate()))
    && match last
       case FlowPending => w.active == Some(r.(phase := PendingConfigCommit, error := None))
       case Matched => w.active.None? && w.retained[r.transaction].state.Soak?
       case AbortedOrAbsent => false
  }

  /** What settling the active record of `v` comes to, by its phase and the flow's last answer. */
  ghost predicate Resolved(v: World, w: World, last: Lookup) {
    v.active.Some?
    && var r := v.active.value;
       match r.phase
       case RolledBack => w == v.(active := None)
       case Committed => w == v.(active := None)
       case PendingConfigCommit =>
         (match last
          case FlowPending => w == v
          case Matched => Soaked(v, w, r.transaction)
          case AbortedOrAbsent => Undone(w, r))
       case Staged => Untouched(w, r, v.disturbed) && w.retained == v.retained
       case Activated => Undone(w, r) || (!r.operation.Update? && Promoted(w, r, last))
       case Verifying => Undone(w, r) || (!r.operation.Update? && Promoted(w, r, last))
       case _ => Undone(w, r)
  }

  /** What the world outside answers during an install or update: identity, inspection, a panel no entry
      owns yet, and admission; the preflight; the admission read again before activating; the health
      observer; and the session closing cleanly, or the caller's own work. */
  datatype Answers = Answers(admitted: bool, preflight: bool, readmitted: bool, healthy: bool, closed: bool)

  const AllYes: Answers := Answers(true, true, true, true, true)

  /** The panel's state can be snapshotted, and its baseline captured. */
  predicate Capturable(p: Panel) {
    var s := Probe(p);
    ValidSnapshot(s) && Correlatable(s)
    && (s.target.Some? ==> s.target.value in p.releases && p.releases[s.target.value].pinned.None?)
  }

  /** A capture adds a baseline and the pin on the selected release, nothing else. */
  predicate Captured(p: Panel, q: Panel) {
    && q == p.(baselines := q.baselines, releases := q.releases) && q.releases.Keys == p.releases.Keys
    && (Probe(p).target.Some? ==> Probe(p).target.value in q.releases && q.releases[Probe(p).target.value].pinned.Some?)
  }

  predicate Installable(w: World, panel: Fingerprint, files: map<Owned, Content>) {
    panel in w.panels && !ProvisioningJournal.PanelTaken(w, panel) && Capturable(w.panels[panel])
    && forall path :: path in OwnedFiles ==> path in files
  }

  /** The candidate is in place as it was passed in: the release holds exactly these files, each installed one
      is live with its final mode, and the selected services carry the ordinal and run on those files. */
  ghost predicate Installed(p: Panel, r: Record, files: map<Owned, Content>, ordinal: nat) {
    && p.link == Some(Target(r.version, r.transaction))
    && r.Dir() in p.releases && p.releases[r.Dir()] == Release(files, None)
    && (forall path: Owned :: path in p.files <==>
          (path.Unit? ==> path.component == Bridge || path.component in r.request.components))
    && (forall path :: path in p.files ==>
          path in files && p.files[path] == File(files[path], if path == EnvFile then 0x180 else 0x1a4))
    && p.enabled == r.request.components && p.active == r.request.components
    && (forall c :: c in r.request.components ==>
          && c in p.trees.identities && p.trees.identities[c] == ordinal
          && Unit(c) in files && EnvFile in files && c in p.started
          && p.started[c].unit == Some(File(files[Unit(c)], 0x1a4))
          && p.started[c].environment == Some(File(files[EnvFile], 0x180)) && p.started[c].link == p.link)
  }

  /** An update that committed: its writes are what the panel shows, and its rollback soaks. */
  ghost predicate CommittedUpdate(w: World, r: Record, p: Panel) {
    w.active.None? && r.Panel() in w.panels && w.panels[r.Panel()] == p
    && r.transaction in w.retained && w.retained[r.transaction].state.Soak? && r.transaction in w.observed
  }

  /** A transaction the operator may ask back: no other one is active, and its retained state allows it. */
  predicate MayAskBack(w: World, t: Uuid) {
    (w.active.None? || IsActive(w, t)) && ProvisioningJournal.MayMove(w, t, RestoreRequested)
  }

  function AskedBack(w: World, t: Uuid, password: string): World
    requires MayAskBack(w, t)
  {
    var v := Retain(w, t, RestoreRequested, None);
    v.(active := Some(RestoreRecord(v.retained[t], v.active, password)))
  }

  /** A retained transaction is gone, its capture deleted, and nothing else was touched but its panel. */
  ghost predicate Forgotten(v: World, w: World, t: Uuid) {
    if t !in v.retained then w == v
    else
      var r := v.retained[t].record;
      && w.retained == v.retained - {t} && w.active == v.active && w.observed == v.observed
      && r.Panel() in v.panels && r.Panel() in w.panels && w.panels == v.panels[r.Panel() := w.panels[r.Panel()]]
      && r.snapshot.baseline.Some? && r.snapshot.baseline.value.id !in w.panels[r.Panel()].baselines
  }

  /** The stores after a verified restore was saved as rolled back, clearing it failed, and that failure
      was recorded like any other rollback's. */
  function Stuck(w: World): World
    requires w.active.Some? && w.active.value.transaction in w.retained
  {
    var r := w.active.value;
    Retain(w, r.transaction, RollbackFailed,
      None).(active := Some(r.(phase := RolledBack, error := Some("rollback_failed"))))
  }

  /** These three writes are steps of the protocol, one after the other. */
  lemma StuckIsReached(w: World)
    requires Inv(w) && Enabled(w, SaveRolledBack)
    ensures var t := w.active.value.transaction;
            var saved := Do(w, SaveRolledBack);
            Enabled(saved, SaveRetained(t, RollbackFailed, None))
            && var marked := Do(saved, SaveRetained(t, RollbackFailed, None));
               Enabled(marked, SaveError(Some("rollback_failed")))
                 && Do(marked, SaveError(Some("rollback_failed"))) == Stuck(w)
    ensures Inv(Stuck(w)) && ActiveOnPanel(Stuck(w))
  {
    hide Inv, Gone, Permitted, MayClear;
    var t := w.active.value.transaction;
    var saved := Do(w, SaveRolledBack);
    StepKeepsInv(w, SaveRolledBack);
    StepKeepsInv(saved, SaveRetained(t, RollbackFailed, None));
    StepKeepsInv(Do(saved, SaveRetained(t, RollbackFailed, None)), SaveError(Some("rollback_failed")));
  }

  /** A restore whose last write fails although everything else went well: recovery refuses what is then
      in the stores, every time; the operator may ask the transaction back, and unless something else is
      in the way that is not blocked. */
  lemma VerifiedRestoreCanStick(w: World, password: string)
    requires Inv(w) && Enabled(w, SaveRolledBack)
    ensures Inv(Stuck(w)) && ActiveOnPanel(Stuck(w)) && Blocked(Stuck(w)) && !Recoverable(Stuck(w))
    ensures MayAskBack(Stuck(w), w.active.value.transaction)
    ensures NothingPending(w) ==> !Blocked(AskedBack(Stuck(w), w.active.value.transaction, password))
  {
    hide Inv, RestoreRecord, Permitted, MayClear, Unpinned;
    var t := w.active.value.transaction;
    StuckIsReached(w);
    assert !Intent(Stuck(w), t);
    AskedAgain(w, password);
  }

  lemma AskedAgain(w: World, password: string)
    requires Inv(w) && Enabled(w, SaveRolledBack)
    ensures var t := w.active.value.transaction;
            MayAskBack(Stuck(w), t) && (NothingPending(w) ==> !Blocked(AskedBack(Stuck(w), t, password)))
  {
    hide Inv, RestoreRecord, Permitted, MayClear;
    var t := w.active.value.transaction;
    var stuck := Stuck(w);
    var asked := Retain(stuck, t, RestoreRequested, None);
    var u := AskedBack(stuck, t, password);
    ActiveFacts(w);
    SettledStart(w);
    RestoreRecordIs(asked.retained[t], asked.active, password);
    assert u == asked.(active := u.active) && asked.retained[t].state.RestoreRequested?;
    assert u.active.value.transaction == t && Intent(u, t);
    assert !PinnedCandidate(u, t);
    if NothingPending(w) {
      forall v ensures Intent(u, v) ==> v == t {}
      forall v | v in u.retained ensures !(u.retained[v].state.Finalizing? && u.retained[v].ownerless) {}
    }
  }

  /** No restore is requested, and no ownerless finalization waits for its operator. */
  ghost predicate NothingPending(w: World) {
    forall t :: t in w.retained ==>
      !w.retained[t].state.RestoreRequested? && !(w.retained[t].state.Finalizing? && w.retained[t].ownerless)
  }

  /** What an install leaves that is refused because an earlier transaction is still retained: a capture
      that pins the selected release. When that is the earlier transaction's own candidate, asking the
      transaction back is blocked, since its candidate can no longer be pruned. */
  lemma OrphanCapturePins(w: World, v: World, t: Uuid, password: string)
    requires Inv(w) && w.active.None? && t in w.retained && w.retained[t].state.Soak?
    requires var r := w.retained[t].record;
             r.Panel() in w.panels && r.Panel() in v.panels
               && v == w.(panels := w.panels[r.Panel() := v.panels[r.Panel()]])
             && Probe(w.panels[r.Panel()]).target == Some(r.Dir()) && Captured(w.panels[r.Panel()], v.panels[r.Panel()])
    ensures MayAskBack(v, t) && Blocked(AskedBack(v, t, password))
  {
    hide Inv, Probe, RestoreRecord;
    var u := AskedBack(v, t, password);
    assert Intent(u, t) && PinnedCandidate(u, t);
  }

  datatype HostIdentity = HostIdentity(publicKey: string, fingerprint: Fingerprint)

  /** The confirmed identity is the journalled one, and the panel proves it again now. */
  predicate ProvesIdentity(r: Record, identity: HostIdentity, fetched: HostIdentity) {
    identity.publicKey == r.request.publicKey && identity.fingerprint == r.request.fingerprint && fetched == identity
  }

  /** The journal is the one the operator confirmed, of an onboarding nobody configured. */
  predicate Abandoned(w: World, expected: Record) {
    && w.active.Some? && SameJournal(w.active.value, expected) && expected.transaction in w.retained
    && OwnerlessRecoveryAllowed(w.active.value, w.retained[expected.transaction])
  }

  /** What settling it can run into: a verified restore needs its candidate pruned, anything else what any
      recovery needs. */
  ghost predicate CanFinish(w: World) {
    ActiveOnPanel(w)
    && var r := w.active.value;
       if w.retained[r.transaction].state.Restored? && r.phase.RollbackPending?
       then Prunable(w.panels[r.Panel()], r.Dir()) else Recoverable(w)
  }

  /** The verified, ownerless restore the operator confirmed, with no journal in the way. */
  predicate Forgettable(w: World, expected: Retained) {
    && w.active.None? && expected.record.transaction in w.retained
    && w.retained[expected.record.transaction] == expected && OwnerlessFinalizationAllowed(expected)
  }

  /** A candidate that no other writer touched and that proves healthy, in a flow still wanted, is never
      rolled back. */
  ghost predicate Wanted(v: World, last: Lookup, healthy: bool) {
    v.active.Some? && (v.active.value.phase.Activated? || v.active.value.phase.Verifying?)
    && !v.active.value.operation.Update? && !last.AbortedOrAbsent? && healthy && !v.disturbed
  }

  class PanelProvisioner {
    const site: Site
    const journal: ProvisioningJournal

    constructor (site: Site)
      ensures this.site == site && Wired()
    {
      this.site := site;
      this.journal := new ProvisioningJournal(site);
    }

    predicate Wired() { journal.site == site }

    // ----- the verified restore -----

    method RestoreVerified(transaction: Uuid) returns (signal: Signal)
      requires Wired() && site.Valid() && Restoring(site.w) && IsActive(site.w, transaction)
      modifies site
      ensures site.Valid() && old(site.history) <= site.history
      ensures transaction in site.w.retained
      ensures site.w.active.None?
              || (IsActive(site.w, transaction)
                  && (site.w.active.value.phase.RollbackPending? || site.w.active.value.phase.RolledBack?))
      ensures signal.Done? ==> Undone(site.w, old(site.w).active.value)
      ensures signal.Done? && !old(site.w).active.value.snapshot.layout.Absent? ==>
                FreshlyProved(old(site.w), site.w, transaction)
      ensures site.calm ==>
                !signal.Crashed?
                && (signal.Done? <==>
                      Unpinned(old(site.w).panels[old(site.w).active.value.Panel()], old(site.w).active.value.Dir()))
                && (!signal.Done? ==>
                      site.w.active == old(site.w).active
                      && site.w.retained[transaction].record == old(site.w).retained[transaction].record
                      && ProvisioningJournal.MayMove(site.w, transaction, RollbackFailed))
    {
      hide Inv, Permitted, Fits, Sound, Held, RestoredPanel, IsPrior, IsPriorUnder, PanelWf, Restarted;
      ActiveFacts(site.w);
      var r := site.w.active.value;
      var panel, s, staged := r.Panel(), r.snapshot, r.Candidate();
      ghost var p := site.w.panels[panel];
      signal := RollbackSnapshot(site, panel, s, staged);
      if !signal.Done? { return; }
      RestoredIsPrior(p, s, staged);
      RestoredPrunable(p, s, staged);
      if s.layout.Absent? {
        CleanupPermitted(site.w, panel, staged);
        signal := CleanupStaged(site, panel, staged);
        if !signal.Done? { return; }
        CleanedIsPrior(RestoredPanel(p, s, s.baseline.value, staged), s, staged.Dir());
        signal := journal.CompleteAbsentRollback(transaction);
      } else {
        signal := VerifyRestored(transaction);
      }
    }

    /** Restart, wait for the fresh deployment's health, and only then record evidence, clean and clear. */
    method VerifyRestored(transaction: Uuid) returns (signal: Signal)
      requires Wired() && site.Valid() && Restoring(site.w) && IsActive(site.w, transaction)
      requires !site.w.active.value.snapshot.layout.Absent?
      requires IsPrior(site.w.panels[site.w.active.value.Panel()], site.w.active.value.snapshot)
      requires Bridge in site.w.panels[site.w.active.value.Panel()].loaded
      modifies site
      ensures site.Valid() && old(site.history) <= site.history
      ensures transaction in site.w.retained
      ensures site.w.active.None?
              || (IsActive(site.w, transaction)
                  && (site.w.active.value.phase.RollbackPending? || site.w.active.value.phase.RolledBack?))
      ensures signal.Done? ==>
                Undone(site.w, old(site.w).active.value) && FreshlyProved(old(site.w), site.w, transaction)
      ensures site.calm ==>
                !signal.Crashed?
                && (signal.Done? <==>
                      Prunable(old(site.w).panels[old(site.w).active.value.Panel()], old(site.w).active.value.Dir()))
                && (!signal.Done? ==>
                      site.w.active == old(site.w).active
                      && site.w.retained[transaction].record == old(site.w).retained[transaction].record
                      && ProvisioningJournal.MayMove(site.w, transaction, RollbackFailed))
    {
      hide Inv, Permitted, Fits, Sound, Held, IsPrior, IsPriorUnder, PanelWf, Restarted, Back;
      ActiveFacts(site.w);
      var r := site.w.active.value;
      var panel, s, staged := r.Panel(), r.snapshot, r.Candidate();
      ghost var p := site.w.panels[panel];
      var deployment := NewId(site.w.observed.Keys);
      var scratch := NewId({deployment});
      signal := RestartRestored(site, panel, s, deployment, scratch);
      if !signal.Done? { return; }
      RestartedReleases(p, s, deployment, scratch);
      signal := site.AwaitHealth(deployment);
      if !signal.Done? { return; }
      signal := RecordVerified(transaction, deployment);
    }

    /** Durable evidence first; then the candidate is deleted, and only then the journal cleared. */
    method RecordVerified(transaction: Uuid, deployment: Uuid) returns (signal: Signal)
      requires Wired() && site.Valid() && Restoring(site.w) && IsActive(site.w, transaction)
               && deployment in site.w.observed
      requires !site.w.active.value.snapshot.layout.Absent?
      requires IsPriorUnder(site.w.panels[site.w.active.value.Panel()], site.w.active.value.snapshot, deployment)
      modifies site
      ensures site.Valid() && old(site.history) <= site.history
      ensures transaction in site.w.retained
      ensures site.w.active.None?
              || (IsActive(site.w, transaction)
                  && (site.w.active.value.phase.RollbackPending? || site.w.active.value.phase.RolledBack?))
      ensures signal.Done? ==>
                Undone(site.w, old(site.w).active.value)
                && site.w.retained[transaction].evidence == Some(deployment) && site.w.observed == old(site.w).observed
      ensures site.calm ==>
                !signal.Crashed?
                && (signal.Done? <==>
                      Prunable(old(site.w).panels[old(site.w).active.value.Panel()], old(site.w).active.value.Dir()))
                && (!signal.Done? ==>
                      site.w.active == old(site.w).active
                      && site.w.retained[transaction].record == old(site.w).retained[transaction].record
                      && ProvisioningJournal.MayMove(site.w, transaction, RollbackFailed))
    {
      hide Inv, Permitted, Fits, Sound, Held, IsPrior, IsPriorUnder, PanelWf, Prunable;
      ActiveFacts(site.w);
      var r := site.w.active.value;
      var panel, s, staged := r.Panel(), r.snapshot, r.Candidate();
      signal := journal.SetRetained(transaction, RetainedState.Restored, Some(deployment));
      if !signal.Done? { return; }
      CleanupPermitted(site.w, panel, staged);
      ghost var p := site.w.panels[panel];
      signal := CleanupStaged(site, panel, staged);
      if !signal.Done? { return; }
      CleanedIsPriorUnder(p, s, deployment, staged.Dir());
      signal := journal.CompleteRollback(transaction, true);
    }

    // ----- rollback of the active transaction -----

    /** Request the restore, make it the journal's record, run it; a failure is recorded durably. */
    method RecoveryRollback(transaction: Uuid, password: string, code: string) returns (signal: Signal)
      requires Wired() && site.Valid() && IsActive(site.w, transaction)
      requires !site.w.active.value.phase.RolledBack?
      modifies site
      ensures site.Valid() && old(site.history) <= site.history
      ensures signal.Done? ==> Undone(site.w, old(site.w).active.value)
      ensures site.calm ==>
                ActiveOnPanel(old(site.w)) && !signal.Crashed?
                && (signal.Done? <==>
                      Unpinned(old(site.w).panels[old(site.w).active.value.Panel()], old(site.w).active.value.Dir()))
                && (!signal.Done? ==> FailureRecorded(site.w, transaction, password))
    {
      hide Inv, Fits, Sound, Held, PanelWf, Permitted, CompensationPassword;
      ActiveFacts(site.w);
      RequestAllowed(site.w);
      signal := journal.SetRetained(transaction, RestoreRequested, None);
      if !signal.Done? { return; }
      signal := journal.BeginRestore(transaction, password);
      if !signal.Done? { return; }
      signal := journal.RecordError(transaction, Some(code));
      if !signal.Done? { return; }
      ActiveFacts(site.w);
      signal := RestoreVerified(transaction);
      if signal.Failed? {
        signal := RecordRollbackFailure(transaction);
      }
    }

    method RecordRollbackFailure(transaction: Uuid) returns (signal: Signal)
      requires Wired() && site.Valid() && transaction in site.w.retained
      requires site.w.active.None?
               || (IsActive(site.w, transaction)
                   && (site.w.active.value.phase.RollbackPending? || site.w.active.value.phase.RolledBack?))
      modifies site
      ensures site.Valid() && old(site.history) <= site.history
      ensures !signal.Done?
      ensures site.w.panels == old(site.w).panels && (site.w.active.None? <==> old(site.w).active.None?)
      ensures site.calm ==> !signal.Crashed?
      ensures site.calm && old(site.w).active.Some?
              && ProvisioningJournal.MayMove(old(site.w), transaction, RollbackFailed) ==>
                site.w.active == Some(old(site.w).active.value.(error := Some("rollback_failed")))
                && site.w.retained == Retain(old(site.w), transaction, RollbackFailed, None).retained
    {
      hide Inv;
      signal := journal.SetRetained(transaction, RollbackFailed, None);
      if !signal.Done? { return; }
      signal := journal.RecordError(transaction, Some("rollback_failed"));
      if signal.Done? { signal := Failed; }
    }

    // ----- compensation of a failed install -----

    /** Undo what an install had started, judging by the phase it last saw saved. */
    method Compensate(transaction: Uuid, seen: Phase, code: string) returns (signal: Signal)
      requires Wired() && site.Valid() && IsActive(site.w, transaction)
      requires seen.Staged? ==> site.w.active.value.phase.Staged? || site.w.active.value.phase.ActivationPending?
      requires !seen.Staged? ==>
                 site.w.active.value.phase.ActivationPending? || site.w.active.value.phase.Activated?
                   || site.w.active.value.phase.Verifying?
      modifies site
      ensures site.Valid() && old(site.history) <= site.history
      ensures signal.Done? ==>
                if seen.Staged? then Untouched(site.w, old(site.w).active.value, old(site.w).disturbed)
                   else Undone(site.w, old(site.w).active.value)
      ensures site.calm && (seen.Staged? ==> old(site.w).active.value.phase.Staged?) ==> signal.Done?
    {
      hide Inv, Fits, Sound, Held, PanelWf, Permitted, IsPrior, IsPriorUnder;
      ActiveFacts(site.w);
      var r := site.w.active.value;
      if !seen.Staged? {
        signal := journal.Transition(transaction, RollbackPending, Some(code));
        if !signal.Done? { return; }
        ActiveFacts(site.w);
        var load, current := journal.Load();
        if !load.Done? { return load; }
        signal := RecoveryRollback(transaction, current.value.request.password, code);
      } else {
        var recorded := journal.RecordError(transaction, Some(code));
        if recorded.Crashed? { return recorded; }
        if r.phase.Staged? { StagedPrunable(site.w); }
        CleanupPermitted(site.w, r.Panel(), r.Candidate());
        ghost var p := site.w.panels[r.Panel()];
        signal := CleanupStaged(site, r.Panel(), r.Candidate());
        if !signal.Done? { return; }
        CleanedIsPrior(p, r.snapshot, r.Dir());
        signal := journal.CompleteCleanup(transaction);
      }
    }

    // ----- recovery -----

    /** What the flow that started a transaction says about it now. */
    method TransactionLookup() returns (signal: Signal, answer: Lookup)
      ensures site.calm ==> signal.Done?
    {
      signal := site.Trouble();
      answer := *;
    }

    /** Delete a finalizing transaction's capture from its panel, then forget the transaction. */
    method FinalizeRetained(e: Retained) returns (signal: Signal)
      requires Wired() && site.Valid()
      requires e.record.transaction in site.w.retained && site.w.retained[e.record.transaction].state.Finalizing?
      requires site.w.retained[e.record.transaction].record == e.record
      modifies site
      ensures site.Valid() && old(site.history) <= site.history
      ensures site.w.active == old(site.w).active
      ensures signal.Done? ==>
                e.record.Panel() in old(site.w).panels && e.record.Panel() in site.w.panels
                && site.w == old(site.w).(
                     retained := old(site.w).retained - {e.record.transaction},
                     panels := old(site.w).panels[e.record.Panel() := site.w.panels[e.record.Panel()]])
                && e.record.snapshot.baseline.Some?
                && e.record.snapshot.baseline.value.id !in site.w.panels[e.record.Panel()].baselines
      ensures site.calm ==> signal.Done?
    {
      hide Inv, Permitted, Fits, Sound, Held, PanelWf;
      FinalizingFacts(site.w, e);
      signal := site.Trouble();
      if !signal.Done? { return; }
      var id := e.record.snapshot.baseline.value.id;
      FinalizeRuns(site.w.panels[e.record.Panel()], id);
      signal := site.Execute(e.record.Panel(), FinalizeBaseline(id));
      if !signal.Done? { return; }
      signal := journal.RemoveRetained(e.record.transaction);
    }

    /** Settle the active record by what its phase says. */
    method RecoverRecord(password: Option<string>, healthy: bool) returns (signal: Signal, last: Lookup)
      requires Wired() && site.Valid() && site.w.active.Some?
      modifies site
      ensures site.Valid() && old(site.history) <= site.history
      ensures ActiveOnPanel(old(site.w))
      ensures signal.Done? ==> Resolved(old(site.w), site.w, last)
      ensures site.calm && !RestoreIntended(old(site.w)) ==> (signal.Done? <==> Recoverable(old(site.w)))
      ensures site.calm && signal.Done? && Wanted(old(site.w), last, healthy) ==>
                Promoted(site.w, old(site.w).active.value, last)
      ensures old(site.w).active.value.phase.RolledBack? && !Recoverable(old(site.w)) ==>
                !signal.Done? && site.w == old(site.w)
    {
      hide Inv, Sound, Held, PanelWf, Undone, Untouched, Promoted;
      ActiveFacts(site.w);
      var r := site.w.active.value;
      last := FlowPending;
      match r.phase
      case RolledBack =>
        var retained: Option<Retained>;
        signal, retained := journal.RetainedOf(r.transaction);
        if !signal.Done? { return; }
        var verified := retained.Some? && retained.value.state.Restored? && retained.value.evidence.Some?;
        signal := journal.CompleteRollback(r.transaction, verified);
      case Committed =>
        signal := journal.CompleteCommit(r.transaction);
      case PendingConfigCommit =>
        signal, last := TransactionLookup();
        if !signal.Done? || last.FlowPending? { return; }
        if last.Matched? {
          CommitAllowed(site.w);
          signal := journal.CompleteCommit(r.transaction);
        } else {
          var later;
          signal, later := RecoverOnPanel(password, healthy);
        }
      case _ =>
        signal, last := RecoverOnPanel(password, healthy);
    }

    /** A staged candidate is deleted and the journal cleared, nothing having been activated. */
    method CleanUnactivated() returns (signal: Signal)
      requires Wired() && site.Valid() && site.w.active.Some? && site.w.active.value.phase.Staged?
      modifies site
      ensures site.Valid() && old(site.history) <= site.history
      ensures signal.Done? ==>
                Untouched(site.w, old(site.w).active.value, old(site.w).disturbed)
                  && site.w.retained == old(site.w).retained
      ensures site.calm ==> signal.Done?
    {
      hide Inv, Permitted, Prunable, IsPrior;
      var r := site.w.active.value;
      StagedPrunable(site.w);
      CleanupPermitted(site.w, r.Panel(), r.Candidate());
      ghost var p := site.w.panels[r.Panel()];
      signal := CleanupStaged(site, r.Panel(), r.Candidate());
      CleanedIsPrior(p, r.snapshot, r.Dir());
      if signal.Done? { signal := journal.CompleteCleanup(r.transaction); }
    }

    /** Connect and settle; a failure before any restore was requested is recorded as best it can. */
    method RecoverOnPanel(password: Option<string>, healthy: bool) returns (signal: Signal, last: Lookup)
      requires Wired() && site.Valid() && site.w.active.Some?
      requires !site.w.active.value.phase.RolledBack? && !site.w.active.value.phase.Committed?
      modifies site
      ensures site.Valid() && old(site.history) <= site.history
      ensures ActiveOnPanel(old(site.w))
      ensures signal.Done? ==>
                if old(site.w).active.value.phase.PendingConfigCommit? then Undone(site.w, old(site.w).active.value)
                else Resolved(old(site.w), site.w, last)
      ensures site.calm && !RestoreIntended(old(site.w)) ==> (signal.Done? <==> Recoverable(old(site.w)))
      ensures site.calm && signal.Done? && Wanted(old(site.w), last, healthy) ==>
                Promoted(site.w, old(site.w).active.value, last)
    {
      hide Inv, Sound, Held, PanelWf, Fits, IsActive, Undone, Untouched, Promoted;
      ActiveFacts(site.w);
      var r := site.w.active.value;
      assert IsActive(site.w, r.transaction) by { ActiveIsItself(site.w); }
      var started := false;
      last := FlowPending;
      signal := site.Trouble();
      if signal.Done? {
        var secret := if password.Some? then password.value else r.request.password;
        if r.phase.Staged? {
          signal := CleanUnactivated();
        } else if r.phase.Activated? || r.phase.Verifying? {
          signal, started, last := ResumeVerification(secret, healthy);
        } else {
          started := true;
          signal := RecoveryRollback(r.transaction, secret, "recovery_interrupted");
        }
      }
      if signal.Failed? && !started && password.None? {
        var recorded := journal.RecordError(r.transaction, Some("recovery_failed"));
        if recorded.Crashed? { signal := Crashed; }
      }
    }

    /** Start the candidate's bridge anew and wait for its health; the record and the retained entries stay. */
    method RestartAndWait(healthy: bool) returns (signal: Signal)
      requires Wired() && site.Valid() && site.w.active.Some? && !site.w.active.value.operation.Update?
      requires site.w.active.value.phase.Activated? || site.w.active.value.phase.Verifying?
      modifies site
      ensures site.Valid() && old(site.history) <= site.history
      ensures site.w.active == old(site.w).active && site.w.retained == old(site.w).retained
      ensures RestoreIntended(site.w) ==> RestoreIntended(old(site.w))
      ensures signal.Done? ==> healthy && site.w.active.value.transaction in site.w.observed
      ensures site.calm ==> !signal.Crashed? && (healthy && !old(site.w).disturbed ==> signal.Done?)
    {
      hide Inv, RunsCandidate, Apply;
      CandidateFacts(site.w);
      var r := site.w.active.value;
      signal := RestartCandidate(site, r.Panel(), r.Candidate());
      if signal.Done? {
        if healthy { signal := site.AwaitHealth(r.transaction); } else { signal := Failed; }
      }
    }

    /** An activated candidate is restarted and watched again, unless its flow is gone or it was an
        update; unhealthy or abandoned, it is rolled back. */
    method ResumeVerification(password: string, healthy: bool) returns (signal: Signal, started: bool, last: Lookup)
      requires Wired() && site.Valid() && site.w.active.Some?
      requires site.w.active.value.phase.Activated? || site.w.active.value.phase.Verifying?
      modifies site
      ensures site.Valid() && old(site.history) <= site.history
      ensures ActiveOnPanel(old(site.w))
      ensures signal.Done? ==> Resolved(old(site.w), site.w, last)
      ensures site.calm && signal.Done? && Wanted(old(site.w), last, healthy) ==>
                Promoted(site.w, old(site.w).active.value, last)
      ensures site.calm && !RestoreIntended(old(site.w)) ==> signal.Done?
    {
      hide Inv, Sound, Held, PanelWf, Fits, RunsCandidate, Undone, Untouched, Promoted, Apply, Unpinned, IsPrior;
      ActiveFacts(site.w);
      var r := site.w.active.value;
      started := true;
      if r.operation.Update? {
        last := AbortedOrAbsent;
        signal := RecoveryRollback(r.transaction, password, "recovery_interrupted");
        return;
      }
      signal, last := TransactionLookup();
      if !signal.Done? { started := false; return; }
      if last.AbortedOrAbsent? {
        signal := RecoveryRollback(r.transaction, password, "flow_aborted");
        return;
      }
      signal := RestartAndWait(healthy);
      ActiveFacts(site.w);
      if signal.Crashed? { return; }
      if signal.Failed? {
        signal := RecoveryRollback(r.transaction, password, "health_failed");
        return;
      }
      signal, started, last := AdvanceVerified(password);
    }

    /** Healthy again: verified, then handed to the flow, or rolled back when the flow is gone. */
    method AdvanceVerified(password: string) returns (signal: Signal, started: bool, last: Lookup)
      requires Wired() && site.Valid() && site.w.active.Some?
      requires site.w.active.value.phase.Activated? || site.w.active.value.phase.Verifying?
      requires site.w.active.value.transaction in site.w.observed && !site.w.active.value.operation.Update?
      modifies site
      ensures site.Valid() && old(site.history) <= site.history
      ensures signal.Done? ==>
                if last.AbortedOrAbsent? then Undone(site.w, old(site.w).active.value)
                   else Promoted(site.w, old(site.w).active.value, last)
      ensures site.calm && !RestoreIntended(old(site.w)) ==> signal.Done?
    {
      hide Inv, Sound, Held, PanelWf, Fits, RunsCandidate, Undone, Unpinned, Apply, Recoverable;
      CandidateFacts(site.w);
      ActiveFacts(site.w);
      var r := site.w.active.value;
      started := false;
      last := AbortedOrAbsent;
      if r.phase.Activated? {
        signal := journal.Transition(r.transaction, Verifying, None);
        if !signal.Done? { return; }
        ActiveFacts(site.w);
      }
      signal, last := TransactionLookup();
      if !signal.Done? { return; }
      if last.AbortedOrAbsent? {
        started := true;
        ghost var v := site.w.active.value;
        signal := RecoveryRollback(r.transaction, password, "flow_aborted");
        SameEnd(site.w, v, r, false);
        return;
      }
      signal := journal.Transition(r.transaction, PendingConfigCommit, None);
      if signal.Done? && last.Matched? {
        CommitAllowed(site.w);
        signal := journal.CompleteCommit(r.transaction);
      }
    }

    /** Finish interrupted finalizations and turn durable restore requests into the journal, in
        whatever order the store lists them; `taken` is the request that became the journal. */
    method SettleIntents() returns (signal: Signal, ghost taken: Option<Uuid>)
      requires Wired() && site.Valid()
      modifies site
      ensures site.Valid() && old(site.history) <= site.history
      ensures signal.Done? ==> Settled(old(site.w), site.w, {}, taken)
      ensures site.calm ==> !signal.Crashed? && (!signal.Done? ==> Blocked(old(site.w)))
    {
      hide Inv, Settled, Blocked;
      taken := None;
      signal := site.Trouble();
      if !signal.Done? { return; }
      var start := site.w.retained;
      SettledStart(site.w);
      var todo := start.Keys;
      while todo != {}
        invariant todo <= start.Keys && start == old(site.w).retained && signal.Done?
        invariant site.Valid() && old(site.history) <= site.history
        invariant Settled(old(site.w), site.w, todo, taken)
      {
        var t :| t in todo;
        var e := start[t];
        ghost var before := site.w;
        StillThere(old(site.w), site.w, todo, taken, t);
        if e.state.Finalizing? {
          if e.ownerless {
            OwnerlessBlocks(old(site.w), t);
            return Failed, taken;
          }
          signal := FinalizeRetained(e);
          if !signal.Done? { return; }
          SettledFinalize(old(site.w), before, site.w, todo, taken, t);
        } else if e.state.RestoreRequested? {
          var password := CompensationPassword(e, site.w.active);
          if password.None? {
            signal := site.Trouble();
            if !signal.Done? { return; }
            password := Some("resolved");
          }
          if !ProvisioningJournal.MayBeginRestore(site.w, t) { BeginBlocked(old(site.w), site.w, todo, taken, t); }
          signal := journal.BeginRestore(t, password.value);
          if !signal.Done? { return; }
          SettledBegin(old(site.w), before, site.w, todo, taken, t, password.value);
          taken := Some(t);
        } else {
          SettledSkip(old(site.w), site.w, todo, taken, t);
        }
        todo := todo - {t};
      }
    }

    /** Settle whatever a crash left. When nothing fails, it succeeds exactly when nothing blocks it, and then
        no journal is left, or one that only waits for its configuration flow. */
    method RecoverCurrent(healthy: bool)
        returns (signal: Signal, last: Lookup, ghost settled: World, ghost taken: Option<Uuid>)
      requires Wired() && site.Valid()
      modifies site
      ensures site.Valid() && old(site.history) <= site.history
      ensures signal.Done? ==>
                site.w.active.None? || (site.w.active.value.phase.PendingConfigCommit? && last.FlowPending?)
      ensures signal.Done? ==>
                Inv(settled) && Settled(old(site.w), settled, {}, taken)
                && if settled.active.None? then site.w == settled else Resolved(settled, site.w, last)
      ensures site.calm ==> (signal.Done? <==> !Blocked(old(site.w)))
    {
      hide Inv;
      last := AbortedOrAbsent;
      settled := site.w;
      signal, taken := SettleIntents();
      if !signal.Done? { return; }
      settled := site.w;
      BlockedAfter(old(site.w), site.w, taken);
      hide Blocked, Settled, Recoverable;
      var record;
      signal, record := journal.Load();
      if signal.Done? && record.Some? {
        signal, last := RecoverRecord(None, healthy);
      }
    }

    // ----- install -----

    /** Snapshot the panel and capture its baseline, before anything is journalled. */
    method CaptureSnapshot(panel: Fingerprint) returns (signal: Signal, snapshot: Snapshot)
      requires Wired() && site.Valid() && panel in site.w.panels && site.w.active.None?
      modifies site
      ensures site.Valid() && old(site.history) <= site.history && site.OnlyPanel(panel)
      ensures signal.Done? ==>
                Sound(snapshot) && Held(site.w.panels[panel], snapshot) && IsPrior(site.w.panels[panel], snapshot)
                && Captured(old(site.w).panels[panel], site.w.panels[panel])
                && snapshot.(baseline := None) == Probe(old(site.w).panels[panel])
      ensures site.calm ==> (signal.Done? <==> Capturable(old(site.w).panels[panel])) && !signal.Crashed?
    {
      hide Inv, Sound, Held, IsPrior, Permitted, Probe, Apply, Capturable;
      snapshot := Probe(site.w.panels[panel]);
      signal := site.Trouble();
      NotCapturable(site.w.panels[panel]);
      if signal.Done? && !ValidSnapshot(snapshot) { signal := Failed; }
      if !signal.Done? { return; }
      var id := NewId(site.w.panels[panel].baselines.Keys);
      ghost var p := site.w.panels[panel];
      CapturePermitted(site.w, panel, CaptureBaseline(id, snapshot));
      CaptureRuns(p, id);
      signal := site.Execute(panel, CaptureBaseline(id, snapshot));
      if !signal.Done? { return; }
      CapturedIsSound(p, id, snapshot, site.w.panels[panel]);
      snapshot := snapshot.(baseline := Some(Baseline(id, site.w.panels[panel].baselines[id])));
      assert snapshot.(baseline := None) == Probe(p);
      CapturePermitted(site.w, panel, VerifyBaseline(snapshot.baseline.value));
      VerifyRuns(site.w.panels[panel], snapshot.baseline.value);
      HeldIsIntact(site.w.panels[panel], snapshot);
      signal := site.Execute(panel, VerifyBaseline(snapshot.baseline.value));
    }

    /** From the staged record to a verified candidate. `seen` is the last phase known to be saved. */
    method InstallAdmitted(files: map<Owned, Content>, ordinal: nat, answers: Answers)
        returns (signal: Signal, seen: Phase)
      requires Wired() && site.Valid() && site.w.active.Some? && site.w.active.value.phase.Staged?
      requires !site.w.active.value.operation.Update?
      modifies site
      ensures site.Valid() && old(site.history) <= site.history
      ensures site.w.active.Some?
              && site.w.active.value == old(site.w).active.value.(phase := site.w.active.value.phase,
                 error := site.w.active.value.error)
      ensures var phase := site.w.active.value.phase;
              && (seen.Staged? ==> phase.Staged? || phase.ActivationPending?)
              && (!seen.Staged? ==> phase.ActivationPending? || phase.Activated? || phase.Verifying?)
              && (site.calm ==> phase == seen && !signal.Crashed?)
              && (signal.Done? ==> phase.Verifying?)
      ensures ActiveOnPanel(old(site.w))
      ensures site.calm ==>
                var r := old(site.w).active.value;
                (signal.Done? <==> CanStage(old(site.w).panels[r.Panel()], r.Candidate(), files)
                                   && answers.preflight && answers.readmitted && answers.healthy)
      ensures signal.Done? ==> !site.w.disturbed
      ensures signal.Done? ==>
                var r := old(site.w).active.value;
                r.Panel() in site.w.panels && Installed(site.w.panels[r.Panel()], r, files, ordinal)
      ensures seen.Staged? ==> site.w.disturbed == old(site.w).disturbed
    {
      hide Inv, Fits, Sound, Held, PanelWf, Permitted, RunsCandidate, Facts, CanStage, Complete, WithRelease, Installed,
           Identified;
      ActiveFacts(site.w);
      var r := site.w.active.value;
      ghost var p := site.w.panels[r.Panel()];
      seen := Phase.Staged;
      signal := StageRelease(site, r.Panel(), r.Candidate(), files);
      if signal.Done? && !answers.preflight { signal := Failed; }
      if !signal.Done? { return; }
      StagedIsComplete(p, r.Candidate(), files);
      ActiveFacts(site.w);
      signal := journal.Transition(r.transaction, ActivationPending, None);
      if !signal.Done? { return; }
      ghost var q := site.w.panels[r.Panel()];
      signal, seen := ActivateAdmitted(ordinal, answers);
      if signal.Done? {
        StagedFiles(p, q, r.Candidate(), files);
        CandidateIsInstalled(q, site.w.panels[r.Panel()], r, files, ordinal);
      }
    }

    /** From a journalled intent to activate, to a verified candidate. */
    method ActivateAdmitted(ordinal: nat, answers: Answers) returns (signal: Signal, seen: Phase)
      requires Wired() && site.Valid() && site.w.active.Some? && site.w.active.value.phase.ActivationPending?
      requires !site.w.active.value.operation.Update?
      modifies site
      ensures site.Valid() && old(site.history) <= site.history
      ensures site.w.active.Some?
              && site.w.active.value == old(site.w).active.value.(phase := site.w.active.value.phase,
                 error := site.w.active.value.error)
      ensures var phase := site.w.active.value.phase;
              && !seen.Staged? && (phase.ActivationPending? || phase.Activated? || phase.Verifying?)
              && (site.calm ==> phase == seen && !signal.Crashed?)
              && (signal.Done? ==> phase.Verifying? && !site.w.disturbed)
      ensures ActiveOnPanel(old(site.w))
      ensures signal.Done? ==>
                var r := old(site.w).active.value;
                var p := old(site.w).panels[r.Panel()];
                && r.Panel() in site.w.panels && RunsCandidate(site.w.panels[r.Panel()], r.Candidate())
                && site.w.panels[r.Panel()].active == r.request.components
                && site.w.panels[r.Panel()].releases == p.releases
                && Identified(p, site.w.panels[r.Panel()], r.Candidate(), ordinal)
      ensures site.calm ==>
                var r := old(site.w).active.value;
                (signal.Done? <==>
                  Complete(old(site.w).panels[r.Panel()], r.Candidate()) && answers.readmitted && answers.healthy)
    {
      hide Inv, Fits, Sound, Held, PanelWf, Permitted, RunsCandidate, Facts, Complete, Identified;
      ActiveFacts(site.w);
      var r := site.w.active.value;
      seen := ActivationPending;
      ActiveFacts(site.w);
      signal := ActivateStaged(site, r.Panel(), r.Candidate(), ordinal, answers.readmitted);
      if !signal.Done? { return; }
      ActiveFacts(site.w);
      signal := journal.Transition(r.transaction, Activated, None);
      if !signal.Done? { return; }
      seen := Activated;
      signal := VerifyActivated(answers.healthy);
      if signal.Done? { seen := Verifying; }
    }

    /** Wait for the candidate's health, then record that it was seen. */
    method VerifyActivated(healthy: bool) returns (signal: Signal)
      requires Wired() && site.Valid() && site.w.active.Some? && site.w.active.value.phase.Activated?
      modifies site
      ensures site.Valid() && old(site.history) <= site.history
      ensures site.w.active.Some?
              && site.w.active.value == old(site.w).active.value.(phase := site.w.active.value.phase,
                 error := site.w.active.value.error)
      ensures site.w.active.value.phase.Activated? || site.w.active.value.phase.Verifying?
      ensures signal.Done? ==> site.w.active.value.phase.Verifying?
      ensures site.w.disturbed == old(site.w).disturbed && site.w.panels == old(site.w).panels
      ensures site.calm ==> (signal.Done? <==> healthy) && !signal.Crashed? && (!signal.Done? ==> site.w == old(site.w))
    {
      hide Inv, Fits, Sound, Held, PanelWf, Permitted, RunsCandidate, Facts;
      if !healthy { return Failed; }
      var transaction := site.w.active.value.transaction;
      signal := site.AwaitHealth(transaction);
      if !signal.Done? { return; }
      ActiveFacts(site.w);
      signal := journal.Transition(transaction, Verifying, None);
    }

    /** Settle a journal left over from before; an install starts only when none remains. */
    method ClearExisting(healthy: bool) returns (signal: Signal)
      requires Wired() && site.Valid()
      modifies site
      ensures site.Valid() && old(site.history) <= site.history
      ensures signal.Done? ==> site.w.active.None?
      ensures old(site.w).active.None? ==> site.w == old(site.w)
      ensures site.calm && old(site.w).active.None? ==> signal.Done?
    {
      hide Inv, Blocked, Settled;
      var record;
      signal, record := journal.Load();
      if !signal.Done? { return; }
      if record.Some? {
        var last;
        ghost var settled, taken;
        signal, last, settled, taken := RecoverCurrent(healthy);
        if !signal.Done? { return; }
        signal, record := journal.Load();
        if signal.Done? && record.Some? { signal := Failed; }
      }
    }

    /** Install or upgrade one panel: capture, journal, stage, activate, verify; and compensate when
        any of it fails. When nothing fails, on a clear journal, it succeeds exactly when the panel can be
        captured, no other transaction is retained for it, the release is complete and every answer from
        outside is yes; otherwise no journal is left. */
    method Install(request: Request, version: string, files: map<Owned, Content>, ordinal: nat, now: int,
        answers: Answers) returns (signal: Signal)
      requires Wired() && site.Valid()
      modifies site
      ensures site.Valid() && old(site.history) <= site.history
      ensures signal.Done? ==>
                ActiveOnPanel(site.w) && site.w.active.value.phase.Verifying?
                && site.w.active.value.transaction in site.w.observed
                && site.w.active.value.request == request && site.w.active.value.version == version
                && site.w.active.value.startedAt == now
                && site.w.active.value.operation
                   == (if site.w.active.value.snapshot.layout.Absent? then Operation.Install else Upgrade)
                && (old(site.w).active.None? && request.fingerprint in old(site.w).panels ==>
                      site.w.active.value.snapshot.(baseline := None) == Probe(old(site.w).panels[request.fingerprint]))
                && Installed(site.w.panels[request.fingerprint], site.w.active.value, files, ordinal)
                && RunsCandidate(site.w.panels[site.w.active.value.Panel()], site.w.active.value.Candidate())
      ensures site.calm && old(site.w).active.None? ==>
                (signal.Done? <==> Installable(old(site.w), request.fingerprint, files) && answers == AllYes)
                && (!signal.Done? ==> site.w.active.None?)
      ensures site.calm && old(site.w).active.None? && answers.admitted && request.fingerprint in old(site.w).panels
              && Capturable(old(site.w).panels[request.fingerprint])
              && ProvisioningJournal.PanelTaken(old(site.w), request.fingerprint) ==>
                site.OnlyPanel(request.fingerprint)
                && Captured(old(site.w).panels[request.fingerprint], site.w.panels[request.fingerprint])
    {
      hide Inv, RunsCandidate, ActiveOnPanel, Run, Back, EndedUntouched, Capturable, Captured, CanStage, Installed,
           Probe;
      signal := ClearExisting(answers.healthy);
      if !signal.Done? { return; }
      if request.fingerprint !in site.w.panels || !answers.admitted { return Failed; }
      var staged;
      signal, staged := CreateRecord(request, version, now, false);
      if !signal.Done? { return; }
      CanStageFresh(site.w.panels[request.fingerprint], staged.Candidate(), files);
      signal := InstallRecord(files, ordinal, answers);
    }

    /** Drive a staged record to verified, or undo it: staging is cleaned up, an activation rolled back. */
    method InstallRecord(files: map<Owned, Content>, ordinal: nat, answers: Answers) returns (signal: Signal)
      requires Wired() && site.Valid() && site.w.active.Some? && site.w.active.value.phase.Staged?
      requires !site.w.active.value.operation.Update?
      modifies site
      ensures site.Valid() && old(site.history) <= site.history
      ensures ActiveOnPanel(old(site.w))
      ensures signal.Done? ==>
                ActiveOnPanel(site.w) && site.w.active.value.phase.Verifying?
                && site.w.active.value
                   == old(site.w).active.value.(phase := Verifying, error := site.w.active.value.error)
                && site.w.active.value.transaction in site.w.observed
                && Installed(site.w.panels[site.w.active.value.Panel()], site.w.active.value, files, ordinal)
                && RunsCandidate(site.w.panels[site.w.active.value.Panel()], site.w.active.value.Candidate())
      ensures site.calm ==>
                var r := old(site.w).active.value;
                (signal.Done? <==> CanStage(old(site.w).panels[r.Panel()], r.Candidate(), files)
                                   && answers.preflight && answers.readmitted && answers.healthy && answers.closed)
                && (!signal.Done? ==> Untouched(site.w, r, old(site.w).disturbed) || Undone(site.w, r))
    {
      hide Inv, RunsCandidate, CanStage, Back, EndedUntouched, Installed;
      ActiveFacts(site.w);
      ghost var staged := site.w.active.value;
      var transaction := site.w.active.value.transaction;
      var seen;
      signal, seen := InstallAdmitted(files, ordinal, answers);
      if signal.Done? {
        VerifiedFacts(site.w);
        SameInstalled(site.w.panels[staged.Panel()], staged, site.w.active.value, files, ordinal);
        if !answers.closed { signal := Failed; }
      }
      if signal.Failed? {
        ghost var r := site.w.active.value;
        signal := Compensate(transaction, seen, "install_failed");
        if signal.Done? {
          SameEnd(site.w, r, old(site.w).active.value, old(site.w).disturbed);
          signal := Failed;
        }
      }
    }

    /** A staged record under an identifier nothing on the panel or in the stores carries yet. */
    method StagedRecord(request: Request, version: string, now: int, update: bool, snapshot: Snapshot)
        returns (record: Record)
      requires request.fingerprint in site.w.panels
      ensures record == Record(record.transaction, record.operation, Phase.Staged, record.setup, request, version,
                               snapshot, now, None)
      ensures record.operation
           == if update then Update else if snapshot.layout.Absent? then Operation.Install else Upgrade
      ensures record.transaction !in site.w.retained && record.transaction !in site.w.observed
      ensures forall dir :: dir in site.w.panels[request.fingerprint].releases ==> dir.transaction != record.transaction
    {
      var used := set dir | dir in site.w.panels[request.fingerprint].releases :: dir.transaction;
      var transaction := NewId(site.w.retained.Keys + site.w.observed.Keys + used);
      var setup := NewId({transaction});
      var operation := if update then Update else if snapshot.layout.Absent? then Operation.Install else Upgrade;
      record := Record(transaction, operation, Phase.Staged, setup, request, version, snapshot, now, None);
    }

    /** Capture the prior state and journal a staged record for it. */
    method CreateRecord(request: Request, version: string, now: int, update: bool)
        returns (signal: Signal, record: Record)
      requires Wired() && site.Valid() && request.fingerprint in site.w.panels && site.w.active.None?
      modifies site
      ensures site.Valid() && old(site.history) <= site.history
      ensures record.phase.Staged? && record.request == request && (record.operation.Update? <==> update)
      ensures record.version == version && record.startedAt == now && record.error.None?
      ensures signal.Done? ==>
                && record.snapshot.(baseline := None) == Probe(old(site.w).panels[request.fingerprint])
                && (!update ==>
                      record.operation == if record.snapshot.layout.Absent? then Operation.Install else Upgrade)
                && record.transaction !in old(site.w).retained && record.transaction !in old(site.w).observed
                && record.transaction in site.w.retained
                && site.w.retained[record.transaction] == Retained(Scrub(record), RetainedState.Armed, None, false)
      ensures site.w.panels.Keys == old(site.w).panels.Keys
      ensures signal.Done? ==>
                site.w.active == Some(record) && !site.w.disturbed
                && record.transaction in site.w.retained && site.w.retained[record.transaction].state.Armed?
                && record.Dir() !in site.w.panels[request.fingerprint].releases
                && Captured(old(site.w).panels[request.fingerprint], site.w.panels[request.fingerprint])
      ensures ProvisioningJournal.PanelTaken(old(site.w), request.fingerprint) ==>
                !signal.Done? && site.OnlyPanel(request.fingerprint)
      ensures site.calm && Capturable(old(site.w).panels[request.fingerprint]) ==>
                Captured(old(site.w).panels[request.fingerprint], site.w.panels[request.fingerprint])
      ensures site.calm ==>
                (signal.Done? <==> Capturable(old(site.w).panels[request.fingerprint])
                                   && !ProvisioningJournal.PanelTaken(old(site.w), request.fingerprint))
                && !signal.Crashed? && (!signal.Done? ==> site.w.active.None? && record.transaction !in site.w.retained)
    {
      hide Inv, Sound, Held, IsPrior, Permitted, Capturable, Captured, Apply, Unpinned, Probe;
      hide ProvisioningJournal.Established;
      var snapshot;
      signal, snapshot := CaptureSnapshot(request.fingerprint);
      record := StagedRecord(request, version, now, update, snapshot);
      if !signal.Done? { return; }
      HeldIsIntact(site.w.panels[request.fingerprint], snapshot);
      NewRecordIsEstablished(site.w, record);
      signal := journal.Create(record);
    }

    // ----- managed update -----

    /** The manager's update of a configured panel, with any writes it makes, under the same journal.
        When nothing fails, on a clear journal, it commits exactly when the panel is free and can be captured,
        the writes run, and the updated agent is healthy; a journalled update that fails is undone. */
    method ManagedUpdate(request: Request, version: string, writes: seq<Cmd>, now: int, answers: Answers)
        returns (signal: Signal, record: Record, ghost captured: Panel)
      requires Wired() && site.Valid() && request.fingerprint in site.w.panels
      requires AllGentle(writes, None)
      modifies site
      ensures site.Valid() && old(site.history) <= site.history
      ensures signal.Done? ==>
                record.version == version && record.request == request && record.operation.Update?
                && Captured(old(site.w).panels[request.fingerprint], captured)
                && Exec(writes, captured).Some? && CommittedUpdate(site.w, record, Exec(writes, captured).value)
      ensures site.calm && old(site.w).active.None? ==>
                (signal.Done? <==> !ProvisioningJournal.PanelTaken(old(site.w), request.fingerprint)
                                   && Capturable(old(site.w).panels[request.fingerprint])
                                   && Exec(writes, captured).Some? && answers.closed && answers.healthy)
                && site.w.active.None?
                && (!signal.Done? && record.transaction in site.w.retained ==> Undone(site.w, record))
    {
      hide Inv, Fits, Sound, Held, IsPrior, PanelWf, Permitted, RunsCandidate, Exec, AllGentle, Captured, Capturable,
           Back;
      captured := site.w.panels[request.fingerprint];
      var setup := NewId(site.w.retained.Keys);
      record := Record(setup, Update, Phase.Staged, setup, request, version, Probe(site.w.panels[request.fingerprint]),
        now, None);
      var current;
      signal, current := journal.Load();
      if !signal.Done? { return; }
      if current.Some? || ProvisioningJournal.PanelTaken(site.w, request.fingerprint) {
        return Failed, record, captured;
      }
      signal, record := CreateRecord(request, version, now, true);
      captured := site.w.panels[request.fingerprint];
      if !signal.Done? { return; }
      ActiveFacts(site.w);
      signal := journal.Transition(record.transaction, ActivationPending, None);
      if !signal.Done? { return; }
      ghost var started := site.w.active.value;
      signal := UpdateOrUndo(record.transaction, writes, answers);
      SameEnd(site.w, started, record, false);
    }

    /** The update under its journal; whatever fails in it, unless it committed, is rolled back. */
    method UpdateOrUndo(transaction: Uuid, writes: seq<Cmd>, answers: Answers) returns (signal: Signal)
      requires Wired() && site.Valid() && IsActive(site.w, transaction) && site.w.active.value.phase.ActivationPending?
      requires site.w.active.value.operation.Update? && AllGentle(writes, None)
      requires transaction in site.w.retained && site.w.retained[transaction].state.Armed?
      modifies site
      ensures site.Valid() && old(site.history) <= site.history
      ensures ActiveOnPanel(old(site.w))
      ensures signal.Done? ==>
                var r := old(site.w).active.value;
                var p := old(site.w).panels[r.Panel()];
                Exec(writes, p).Some? && CommittedUpdate(site.w, r, Exec(writes, p).value)
      ensures site.calm ==>
                var r := old(site.w).active.value;
                (signal.Done? <==>
                  Exec(writes, old(site.w).panels[r.Panel()]).Some? && answers.closed && answers.healthy)
                && site.w.active.None? && (!signal.Done? ==> Undone(site.w, r))
    {
      hide Inv, Fits, Sound, Held, PanelWf, Permitted, Exec, AllGentle, Back, CommittedUpdate;
      ActiveFacts(site.w);
      ghost var started := site.w.active.value;
      signal := UpdateAdmitted(transaction, writes, answers);
      if signal.Failed? {
        var current;
        signal, current := journal.Load();
        if signal.Done? && current.Some? && !current.value.phase.Committed? {
          ActiveFacts(site.w);
          signal := RecoveryRollback(transaction, current.value.request.password, "health_failed");
          SameEnd(site.w, current.value, started, false);
        }
        if signal.Done? { signal := Failed; }
      }
    }

    /** The admitted writes, the wait for health, and the commit. */
    method UpdateAdmitted(transaction: Uuid, writes: seq<Cmd>, answers: Answers) returns (signal: Signal)
      requires Wired() && site.Valid() && IsActive(site.w, transaction) && site.w.active.value.phase.ActivationPending?
      requires site.w.active.value.operation.Update? && AllGentle(writes, None)
      requires transaction in site.w.retained && site.w.retained[transaction].state.Armed?
      modifies site
      ensures site.Valid() && old(site.history) <= site.history
      ensures ActiveOnPanel(old(site.w))
      ensures signal.Done? ==>
                var r := old(site.w).active.value;
                var p := old(site.w).panels[r.Panel()];
                Exec(writes, p).Some? && CommittedUpdate(site.w, r, Exec(writes, p).value)
      ensures site.w.active.Some? ==>
                !site.w.active.value.phase.RolledBack?
                && site.w.active.value == old(site.w).active.value.(phase := site.w.active.value.phase,
                   error := site.w.active.value.error)
      ensures site.calm ==>
                (signal.Done? <==>
                  Exec(writes, old(site.w).panels[old(site.w).active.value.Panel()]).Some? && answers.closed
                    && answers.healthy)
                && !signal.Crashed? && (site.w.active.None? <==> signal.Done?)
                   && (site.w.active.Some? ==> !site.w.active.value.phase.Committed?)
    {
      hide Inv, Fits, Sound, Held, PanelWf, Permitted, Exec, AllGentle;
      ActiveFacts(site.w);
      var r := site.w.active.value;
      WritesPermitted(site.w, r.Panel(), writes);
      signal := site.ExecuteAll(r.Panel(), writes, None);
      if !signal.Done? { return; }
      if !answers.closed || !answers.healthy { return Failed; }
      signal := site.AwaitHealth(transaction);
      if !signal.Done? { return; }
      signal := CommitUpdate(transaction);
    }

    /** A healthy update goes through every phase to its commit. */
    method CommitUpdate(transaction: Uuid) returns (signal: Signal)
      requires Wired() && site.Valid() && IsActive(site.w, transaction) && site.w.active.value.phase.ActivationPending?
      requires site.w.active.value.operation.Update? && transaction in site.w.observed
      requires site.w.active.value.Panel() in site.w.panels
               && Shown(site.w, site.w.active.value, site.w.panels[site.w.active.value.Panel()])
      requires transaction in site.w.retained && site.w.retained[transaction].state.Armed?
      modifies site
      ensures site.Valid() && old(site.history) <= site.history
      ensures site.w.panels == old(site.w).panels && site.w.observed == old(site.w).observed
      ensures signal.Done? ==>
                site.w.active.None? && transaction in site.w.retained && site.w.retained[transaction].state.Soak?
      ensures site.w.active.Some? ==>
                !site.w.active.value.phase.RolledBack?
                && site.w.active.value == old(site.w).active.value.(phase := site.w.active.value.phase,
                   error := site.w.active.value.error)
      ensures site.calm ==> signal.Done?
    {
      hide Inv, Fits, Sound, Held, PanelWf, Permitted, Shown, Unpinned;
      ActiveFacts(site.w);
      signal := journal.Transition(transaction, Activated, None);
      if !signal.Done? { return; }
      ActiveFacts(site.w);
      signal := journal.Transition(transaction, Verifying, None);
      if !signal.Done? { return; }
      ActiveFacts(site.w);
      signal := journal.Transition(transaction, PendingConfigCommit, None);
      if !signal.Done? { return; }
      CommitAllowed(site.w);
      signal := journal.CompleteCommit(transaction);
    }

    // ----- the configuration handoff -----

    /** Verified becomes pending its configuration commit; asking twice is harmless. */
    method MarkPendingConfigCommit(transaction: Uuid) returns (signal: Signal)
      requires Wired() && site.Valid()
      modifies site
      ensures site.Valid() && old(site.history) <= site.history
      ensures signal.Done? ==> IsActive(site.w, transaction) && site.w.active.value.phase.PendingConfigCommit?
      ensures site.calm ==>
                (signal.Done? <==> IsActive(old(site.w), transaction)
                                   && (old(site.w).active.value.phase.Verifying?
                                       || old(site.w).active.value.phase.PendingConfigCommit?))
    {
      hide Inv;
      var record;
      signal, record := journal.Load();
      if !signal.Done? { return; }
      if record.None? || record.value.transaction != transaction { return Failed; }
      if record.value.phase.PendingConfigCommit? { return; }
      if !record.value.phase.Verifying? { return Failed; }
      ActiveFacts(site.w);
      signal := journal.Transition(transaction, PendingConfigCommit, None);
    }

    /** The subentry exists: commit and clear. */
    method CompleteConfigCommit(transaction: Uuid) returns (signal: Signal)
      requires Wired() && site.Valid()
      modifies site
      ensures site.Valid() && old(site.history) <= site.history
      ensures signal.Done? ==>
                IsActive(old(site.w), transaction)
                && if old(site.w).active.value.phase.Committed? then site.w == old(site.w).(active := None)
                   else old(site.w).active.value.phase.PendingConfigCommit? && Soaked(old(site.w), site.w, transaction)
      ensures site.calm ==>
                (signal.Done? <==> IsActive(old(site.w), transaction)
                                   && (old(site.w).active.value.phase.Committed?
                                       || (old(site.w).active.value.phase.PendingConfigCommit?
                                           && ProvisioningJournal.MayMove(old(site.w), transaction, Soak))))
    {
      hide Inv;
      if site.w.active.Some? && site.w.active.value.phase.PendingConfigCommit? { CommitAllowed(site.w); }
      signal := journal.CompleteCommit(transaction);
    }

    // ----- the operator -----

    /** Record the operator's intent to restore, then let recovery carry it out: done, the panel is back
        on the state the transaction had captured. When nothing fails, it succeeds exactly when the transaction
        may be asked back and nothing blocks the recovery of that request. */
    method OperatorRollback(transaction: Uuid, password: string, healthy: bool) returns (signal: Signal)
      requires Wired() && site.Valid()
      modifies site
      ensures site.Valid() && old(site.history) <= site.history
      ensures signal.Done? ==>
                transaction in old(site.w).retained && Undone(site.w, old(site.w).retained[transaction].record)
      ensures site.calm ==>
                (signal.Done? <==>
                  MayAskBack(old(site.w), transaction) && !Blocked(AskedBack(old(site.w), transaction, password)))
    {
      hide Inv, Blocked, Settled, Resolved, Undone, RestoreRecord;
      var current;
      signal, current := journal.Load();
      if !signal.Done? { return; }
      if current.Some? && current.value.transaction != transaction { return Failed; }
      var retained;
      signal, retained := journal.RetainedOf(transaction);
      if !signal.Done? { return; }
      if retained.None? { return Failed; }
      signal := site.Trouble();
      if !signal.Done? { return; }
      signal := journal.SetRetained(transaction, RestoreRequested, None);
      if !signal.Done? { return; }
      signal := journal.BeginRestore(transaction, password);
      if !signal.Done? { return; }
      ghost var asked := site.w;
      var last;
      ghost var settled, taken;
      signal, last, settled, taken := RecoverCurrent(healthy);
      if signal.Done? { AskedIsUndone(asked, settled, site.w, transaction, taken, last, retained.value.record); }
    }

    /** Give up the rollback guarantee: durable intent first, then the capture, then the record. */
    method Finalize(transaction: Uuid) returns (signal: Signal)
      requires Wired() && site.Valid()
      modifies site
      ensures site.Valid() && old(site.history) <= site.history
      ensures signal.Done? ==> Forgotten(old(site.w), site.w, transaction)
      ensures site.calm ==> (signal.Done? <==>
                old(site.w).active.None?
                && (transaction in old(site.w).retained ==>
                      !old(site.w).retained[transaction].ownerless
                      && !old(site.w).retained[transaction].state.RestoreRequested?))
    {
      hide Inv;
      var current;
      signal, current := journal.Load();
      if !signal.Done? { return; }
      if current.Some? { return Failed; }
      var retained;
      signal, retained := journal.RetainedOf(transaction);
      if !signal.Done? || retained.None? { return; }
      if retained.value.ownerless { return Failed; }
      SettledStart(site.w);
      signal := journal.SetRetained(transaction, Finalizing, None);
      if !signal.Done? { return; }
      signal := FinalizeRetained(retained.value);
    }

    // ----- fresh authority over an ownerless transaction -----

    /** The journal belongs to an abandoned onboarding that no configured panel owns. */
    method AssertOwnerlessJournal(expected: Record)
        returns (signal: Signal, retained: Option<Retained>, claimed: bool)
      requires Wired() && site.Valid()
      ensures site.calm ==> !signal.Crashed? && (signal.Done? <==> Abandoned(site.w, expected) && !claimed)
      ensures signal.Done? ==>
                !claimed && retained.Some? && site.w.active.Some? && SameJournal(site.w.active.value, expected)
                  && IsActive(site.w, expected.transaction) && expected.transaction in site.w.retained
                && site.w.retained[expected.transaction] == retained.value
                && OwnerlessRecoveryAllowed(site.w.active.value, retained.value)
    {
      retained, claimed := None, false;
      var current;
      signal, current := journal.Load();
      if !signal.Done? { return; }
      signal, retained := journal.RetainedOf(expected.transaction);
      if !signal.Done? { return; }
      if current.None? || !SameJournal(current.value, expected) || retained.None?
         || !OwnerlessRecoveryAllowed(current.value, retained.value) {
        return Failed, retained, claimed;
      }
      var owned: bool := *;
      var answer;
      signal, answer := TransactionLookup();
      claimed := owned || !answer.AbortedOrAbsent?;
      if signal.Done? && claimed { signal := Failed; }
    }

    /** A restore already proved durably only needs its candidate pruned and its journal cleared. */
    method FinishVerifiedRestore() returns (signal: Signal)
      requires Wired() && site.Valid() && site.w.active.Some? && site.w.active.value.phase.RollbackPending?
      requires site.w.active.value.transaction in site.w.retained
               && site.w.retained[site.w.active.value.transaction].state.Restored?
      modifies site
      ensures site.Valid() && old(site.history) <= site.history
      ensures signal.Done? ==>
                site.w.active.None? && (old(site.w).disturbed || Undone(site.w, old(site.w).active.value))
      ensures site.calm ==>
                ActiveOnPanel(old(site.w))
                && (signal.Done? <==>
                      Prunable(old(site.w).panels[old(site.w).active.value.Panel()], old(site.w).active.value.Dir()))
    {
      hide Inv, Permitted, Fits, Sound, Held, IsPrior, IsPriorUnder, PanelWf, Prunable;
      ActiveFacts(site.w);
      var r := site.w.active.value;
      CleanupPermitted(site.w, r.Panel(), r.Candidate());
      signal := site.Trouble();
      if !signal.Done? { return; }
      signal := CleanupStaged(site, r.Panel(), r.Candidate());
      if !signal.Done? { return; }
      ActiveFacts(site.w);
      RestoredBack(site.w);
      if r.snapshot.layout.Absent? {
        signal := journal.CompleteAbsentRollback(r.transaction);
      } else {
        signal := journal.CompleteRollback(r.transaction, true);
      }
    }

    /** Roll an abandoned onboarding back with freshly entered access. */
    method RecoverOwnerlessJournal(expected: Record, password: string, identity: HostIdentity, fetched: HostIdentity,
        healthy: bool)
        returns (signal: Signal, last: Lookup, ghost claimed: bool)
      requires Wired() && site.Valid()
      modifies site
      ensures site.Valid() && old(site.history) <= site.history
      ensures site.calm && !RestoreIntended(old(site.w)) ==> (signal.Done? <==>
                && Abandoned(old(site.w), expected) && ProvesIdentity(expected, identity, fetched) && !claimed
                && CanFinish(old(site.w)) && site.w.active.None?)
      ensures signal.Done? ==>
                site.w.active.None? && IsActive(old(site.w), expected.transaction)
                  && SameJournal(old(site.w).active.value, expected)
                && expected.transaction in old(site.w).retained
                && OwnerlessRecoveryAllowed(old(site.w).active.value, old(site.w).retained[expected.transaction])
                && (Resolved(old(site.w), site.w, last) || old(site.w).disturbed)
      ensures !ProvesIdentity(expected, identity, fetched) ==> !signal.Done? && site.w == old(site.w)
    {
      hide Inv, Recoverable, OwnerlessRecoveryAllowed, Undone, Untouched, Promoted;
      last := FlowPending;
      var retained;
      signal, retained, claimed := AssertOwnerlessJournal(expected);
      if !signal.Done? { return; }
      if !ProvesIdentity(expected, identity, fetched) { return Failed, last, claimed; }
      signal, retained, claimed := AssertOwnerlessJournal(expected);
      if !signal.Done? { return; }
      AbandonedOnPanel(site.w, expected);
      var current;
      signal, current := journal.Load();
      if !signal.Done? { return; }
      if retained.value.state.Restored? && current.value.phase.RollbackPending? {
        signal := FinishVerifiedRestore();
      } else {
        signal, last := RecoverRecord(Some(password), healthy);
      }
      if !signal.Done? { return; }
      signal, current := journal.Load();
      if signal.Done? && current.Some? { signal := Failed; }
    }

    method AssertOwnerless(expected: Retained) returns (signal: Signal, owned: bool)
      requires Wired() && site.Valid()
      ensures site.calm ==> !signal.Crashed? && (signal.Done? <==> Forgettable(site.w, expected) && !owned)
      ensures signal.Done? ==>
                !owned && site.w.active.None? && expected.record.transaction in site.w.retained
                && site.w.retained[expected.record.transaction] == expected && OwnerlessFinalizationAllowed(expected)
    {
      owned := false;
      var current;
      signal, current := journal.Load();
      if !signal.Done? { return; }
      var retained;
      signal, retained := journal.RetainedOf(expected.record.transaction);
      if !signal.Done? { return; }
      owned := *;
      if current.Some? || retained != Some(expected) || !OwnerlessFinalizationAllowed(expected) || owned {
        signal := Failed;
      }
    }

    /** Finalize one verified, ownerless restore under freshly proved authority. */
    method FinalizeOwnerlessRestored(expected: Retained, identity: HostIdentity, fetched: HostIdentity)
        returns (signal: Signal, ghost owned: bool)
      requires Wired() && site.Valid()
      modifies site
      ensures site.Valid() && old(site.history) <= site.history
      ensures site.calm ==> (signal.Done? <==>
                Forgettable(old(site.w), expected) && ProvesIdentity(expected.record, identity, fetched) && !owned)
      ensures signal.Done? ==>
                Forgotten(old(site.w), site.w, expected.record.transaction)
                && expected.record.transaction in old(site.w).retained
                   && old(site.w).retained[expected.record.transaction] == expected
                && OwnerlessFinalizationAllowed(expected)
      ensures !ProvesIdentity(expected.record, identity, fetched) ==> !signal.Done? && site.w == old(site.w)
    {
      hide Inv, Permitted, OwnerlessFinalizationAllowed;
      signal, owned := AssertOwnerless(expected);
      if !signal.Done? { return; }
      if !ProvesIdentity(expected.record, identity, fetched) { return Failed, owned; }
      signal, owned := AssertOwnerless(expected);
      if !signal.Done? { return; }
      signal := journal.BeginOwnerlessFinalize(expected);
      if !signal.Done? { return; }
      var marked := expected.(state := Finalizing, ownerless := true);
      MarkedStaysAllowed(expected);
      signal, owned := AssertOwnerless(marked);
      if !signal.Done? { return; }
      signal := FinalizeRetained(marked);
    }
  }

  lemma AbandonedOnPanel(w: World, expected: Record)
    requires Inv(w) && Abandoned(w, expected)
    ensures ActiveOnPanel(w) && w.active.value.transaction == expected.transaction
  {
    hide Inv, OwnerlessRecoveryAllowed;
    ActiveFacts(w);
  }

  lemma MarkedStaysAllowed(expected: Retained)
    requires OwnerlessFinalizationAllowed(expected)
    ensures OwnerlessFinalizationAllowed(expected.(state := Finalizing, ownerless := true))
  {
  }

  lemma CapturePermitted(w: World, panel: Fingerprint, cmd: Cmd)
    requires w.active.None? && (cmd.CaptureBaseline? || cmd.VerifyBaseline?)
    ensures Permitted(w, panel, cmd)
  {
  }

  lemma CapturedIsSound(p: Panel, id: Uuid, s: Snapshot, q: Panel)
    requires Apply(CaptureBaseline(id, s), p) == Some(q) && ValidSnapshot(s) && s == Probe(p)
    ensures id in q.baselines && Captured(p, q)
    ensures var t := s.(baseline := Some(Baseline(id, q.baselines[id])));
            Sound(t) && Held(q, t) && IsPrior(q, t)
  {
    CaptureIsSound(p, id, s, q);
  }

  lemma NotCapturable(p: Panel)
    ensures Probe(p).baseline.None? && (Capturable(p) ==> ValidSnapshot(Probe(p)))
  {
  }

  /** A capture of the snapshot just taken goes through exactly when the panel can be captured. */
  lemma CaptureRuns(p: Panel, id: Uuid)
    requires ValidSnapshot(Probe(p)) && id !in p.baselines
    ensures Apply(CaptureBaseline(id, Probe(p)), p).Some? <==> Capturable(p)
  {
    hide Probe;
  }

  lemma NewRecordIsEstablished(w: World, r: Record)
    requires Onboarding(r.operation) || r.operation.Update?
    requires r.transaction !in w.retained && r.transaction !in w.observed && r.Panel() in w.panels
    requires forall dir :: dir in w.panels[r.Panel()].releases ==> dir.transaction != r.transaction
    requires Sound(r.snapshot) && Held(w.panels[r.Panel()], r.snapshot) && IsPrior(w.panels[r.Panel()], r.snapshot)
    ensures ProvisioningJournal.Established(w, r) && r.Dir() !in w.panels[r.Panel()].releases
  {
    hide Sound, Held, IsPrior;
  }

  lemma HeldIsIntact(p: Panel, s: Snapshot)
    ensures Held(p, s) ==> s.baseline.Some? && BaselineIntact(p, s.baseline.value)
  {
  }

  lemma CanStageFresh(p: Panel, staged: StagedRelease, files: map<Owned, Content>)
    ensures staged.Dir() !in p.releases ==>
              (CanStage(p, staged, files) <==> forall path :: path in OwnedFiles ==> path in files)
  {
  }

  lemma StagedFiles(p: Panel, q: Panel, staged: StagedRelease, files: map<Owned, Content>)
    requires q == WithRelease(p, staged, files)
    ensures staged.Dir() in q.releases && q.releases[staged.Dir()] == Release(files, None)
  {
  }

  /** What was staged is what an activation that leaves the releases alone has put in place. */
  lemma CandidateIsInstalled(p: Panel, q: Panel, r: Record, files: map<Owned, Content>, ordinal: nat)
    requires r.Dir() in p.releases && p.releases[r.Dir()] == Release(files, None) && q.releases == p.releases
    requires RunsCandidate(q, r.Candidate()) && q.active == r.request.components
    requires Identified(p, q, r.Candidate(), ordinal)
    ensures Installed(q, r, files, ordinal)
  {
    forall c | c in r.request.components ensures Installs(r.Candidate(), Unit(c)) && Installs(r.Candidate(), EnvFile) {}
  }

  lemma SameInstalled(p: Panel, r: Record, s: Record, files: map<Owned, Content>, ordinal: nat)
    requires s == r.(phase := s.phase, error := s.error)
    ensures Installed(p, r, files, ordinal) ==> Installed(p, s, files, ordinal)
  {
  }

  lemma StagedIsComplete(p: Panel, staged: StagedRelease, files: map<Owned, Content>)
    ensures CanStage(p, staged, files) ==> Complete(WithRelease(p, staged, files), staged)
  {
  }

  /** How a transaction ended does not depend on the phase and error its record last had. */
  lemma SameEnd(w: World, r: Record, s: Record, disturbed: bool)
    requires s == r.(phase := s.phase, error := s.error)
    ensures Undone(w, r) ==> Undone(w, s)
    ensures Untouched(w, r, disturbed) && s.phase.Staged? ==> Untouched(w, s, disturbed)
  {
  }

  /** The request that was asked back is the one recovery settled on, and it was rolled back. */
  lemma AskedIsUndone(asked: World, settled: World, w: World, t: Uuid, taken: Option<Uuid>, last: Lookup, r: Record)
    requires Inv(settled) && Settled(asked, settled, {}, taken) && Intent(asked, t) && asked.retained[t].record == r
    requires if settled.active.None? then w == settled else Resolved(settled, w, last)
    ensures Undone(w, r)
  {
    hide Inv, Back, Sound, Held, Fits, PanelWf, PanelsSettled, Unpinned;
    assert taken == Some(t);
    ActiveFacts(settled);
    assert t in settled.retained && settled.retained[t] == asked.retained[t];
    var q := settled.active.value;
    assert Undone(w, q);
    SameBack(q, r, w.retained[t], w.panels[r.Panel()]);
  }

  lemma SameBack(q: Record, r: Record, e: Retained, p: Panel)
    requires q.snapshot == r.snapshot && q.Dir() == r.Dir()
    ensures Back(q, e, p) ==> Back(r, e, p)
  {
  }

  /** A verified restore whose candidate is gone is back on the prior state. */
  lemma RestoredBack(w: World)
    requires Inv(w) && w.active.Some? && w.active.value.phase.RollbackPending?
    requires w.active.value.transaction in w.retained && w.retained[w.active.value.transaction].state.Restored?
    ensures ActiveOnPanel(w)
    ensures !w.disturbed && Gone(w.panels[w.active.value.Panel()], w.active.value.Dir()) ==>
              Back(w.active.value, w.retained[w.active.value.transaction], w.panels[w.active.value.Panel()])
  {
    hide PanelsOk, OnePerPanel, AllRetainedOk, IsPrior, IsPriorUnder, Gone;
  }

  lemma CandidateFacts(w: World)
    requires Inv(w) && w.active.Some? && !w.active.value.operation.Update?
    requires w.active.value.phase.Activated? || w.active.value.phase.Verifying?
    ensures ActiveOnPanel(w)
            && (w.disturbed || RunsCandidate(w.panels[w.active.value.Panel()], w.active.value.Candidate()))
  {
    hide PanelsOk, OnePerPanel, AllRetainedOk, RunsCandidate;
  }

  lemma VerifiedFacts(w: World)
    requires Inv(w) && w.active.Some? && w.active.value.phase.Verifying?
    ensures ActiveOnPanel(w) && w.active.value.transaction in w.observed
    ensures !w.active.value.operation.Update? && !w.disturbed ==>
              RunsCandidate(w.panels[w.active.value.Panel()], w.active.value.Candidate())
  {
    hide PanelsOk, OnePerPanel, AllRetainedOk, RunsCandidate;
  }

  lemma WritesPermitted(w: World, panel: Fingerprint, writes: seq<Cmd>)
    requires ActiveIn(w, panel, ActivationPending) && AllGentle(writes, None)
    ensures ListPermitted(w, panel, writes, None)
  {
    forall cmd | cmd in writes
      ensures Permitted(w, panel, cmd) && !cmd.Prune? && (cmd.MoveLinkTemp? ==> None == Some(cmd.dir))
    {
      assert Gentle(cmd, None);
    }
  }

  /** A restore may be requested for whatever the journal holds. */
  lemma RequestAllowed(w: World)
    requires Inv(w) && w.active.Some?
    ensures ActiveOnPanel(w) && ProvisioningJournal.MayMove(w, w.active.value.transaction, RestoreRequested)
    ensures MayRetain(w, w.active.value.transaction, RestoreRequested, None)
  {
    hide PanelsOk, OnePerPanel, AllRetainedOk, Facts;
  }

  lemma RestoredPrunable(p: Panel, s: Snapshot, staged: StagedRelease)
    requires s.baseline.Some? && s.target != Some(staged.Dir())
    ensures Prunable(RestoredPanel(p, s, s.baseline.value, staged), staged.Dir()) <==> Unpinned(p, staged.Dir())
  {
  }

  lemma CleanedIsPrior(p: Panel, s: Snapshot, dir: Target)
    ensures IsPrior(p, s) ==> IsPrior(Cleaned(p, dir), s)
  {
  }

  lemma CleanedIsPriorUnder(p: Panel, s: Snapshot, deployment: Uuid, dir: Target)
    ensures IsPriorUnder(p, s, deployment) ==> IsPriorUnder(Cleaned(p, dir), s, deployment)
  {
  }

  lemma RestartedReleases(p: Panel, s: Snapshot, deployment: Uuid, scratch: Uuid)
    requires EnvFile in s.files
    ensures var q := Restarted(p, s, deployment, scratch); q.releases == p.releases && q.link == p.link
  {
  }
}
