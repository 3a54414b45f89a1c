/** What holds in every world of every run, and what follows whenever the active journal is cleared. */
module Safety {
  import opened Common
  import opened PanelState
  import opened PanelCommands
  import opened Rollback
  import opened Records
  import opened Protocol

  // ----- the invariant -----

  ghost predicate RetainedOk(w: World, t: Uuid)
    requires t in w.retained
  {
    var e := w.retained[t];
    && e.record.transaction == t && e.record.phase.Staged? && e.record.request.password == CredentialPlaceholder
    && (Onboarding(e.record.operation) || e.record.operation.Update?)
    && Sound(e.record.snapshot) && e.record.snapshot.target != Some(e.record.Dir())
    && e.record.Panel() in w.panels
    && (!e.state.Finalizing? ==> Held(w.panels[e.record.Panel()], e.record.snapshot) && !e.ownerless)
    && (e.state.Restored? ==> Proven(e))
  }

  ghost predicate OnePerPanel(w: World) {
    forall t, u ::
      t in w.retained && u in w.retained && w.retained[t].record.Panel() == w.retained[u].record.Panel() ==> t == u
  }

  /** Which retained states may stand beside a journal phase. */
  predicate Fits(phase: Phase, e: Retained) {
    match phase
    case Committed => e.state.Soak? || e.state.RestoreRequested?
    case PendingConfigCommit => e.state.Armed? || e.state.RestoreRequested? || e.state.Soak?
    case RollbackPending =>
      e.state.Armed? || e.state.RestoreRequested? || e.state.RollbackFailed? || (e.state.Restored? && Proven(e))
    case RolledBack => (e.state.Restored? || e.state.RestoreRequested? || e.state.RollbackFailed?) && e.evidence.Some?
    case _ => e.state.Armed? || e.state.RestoreRequested?
  }

  /** The prior state: exactly, or up to the correlation line when there was one. */
  ghost predicate Prior(r: Record, e: Retained, p: Panel) {
    if r.snapshot.layout.Absent? then IsPrior(p, r.snapshot)
    else e.evidence.Some? && IsPriorUnder(p, r.snapshot, e.evidence.value)
  }

  /** What the phase says about the panel: what other writers cannot change, and the rest for as long as
      none of them has acted. */
  ghost predicate Facts(w: World, r: Record, e: Retained, p: Panel) {
    match r.phase
    case Staged => (w.disturbed || IsPrior(p, r.snapshot)) && p.link != Some(r.Dir())
    case ActivationPending => true
    case Activated => w.disturbed || Shown(w, r, p)
    case RollbackPending =>
      e.state.Restored? ==>
        Proven(e) && (r.snapshot.layout.Absent? ==> Gone(p, r.Dir())) && (w.disturbed || Prior(r, e, p))
    case RolledBack =>
      !r.snapshot.layout.Absent? && e.evidence.Some? && Gone(p, r.Dir()) && (w.disturbed || Prior(r, e, p))
    case _ => r.transaction in w.observed && (w.disturbed || Shown(w, r, p))
  }

  predicate Unpinned(p: Panel, dir: Target) { dir in p.releases ==> p.releases[dir].pinned.None? }

  ghost predicate ActiveOk(w: World) {
    w.active.Some? ==>
      ActiveOnPanel(w)
      && var r := w.active.value;
         var e := w.retained[r.transaction];
         var p := w.panels[r.Panel()];
         && SameTransaction(r, e.record)
         && Fits(r.phase, e)
         && Facts(w, r, e, p)
         && (!r.operation.ManualRollback? ==> Unpinned(p, r.Dir()))
         && (r.operation == e.record.operation || r.phase.RollbackPending? || r.phase.RolledBack?)
  }

  ghost predicate PanelsOk(w: World) { forall panel :: panel in w.panels ==> PanelWf(w.panels[panel]) }

  ghost predicate AllRetainedOk(w: World) { forall t :: t in w.retained ==> RetainedOk(w, t) }

  ghost predicate Inv(w: World) { PanelsOk(w) && AllRetainedOk(w) && OnePerPanel(w) && ActiveOk(w) }

  /** A new installation starts sound: nothing journalled, nothing retained. */
  lemma StartsSound(w: World)
    requires w.active.None? && w.retained == map[] && PanelsOk(w)
    ensures Inv(w)
  {
  }

  // ----- panel steps -----

  /** Nothing a rollback needs is lost, and no release in use disappears. */
  ghost predicate Protects(p: Panel, q: Panel) {
    PanelWf(q) && forall s :: Held(p, s) ==> Held(q, s)
  }

  lemma DiscardProtects(p: Panel, cmd: Cmd, dir: Target)
    requires PanelWf(p) && Discards(cmd, dir) && Apply(cmd, p).Some?
    ensures Protects(p, Apply(cmd, p).value)
  {
    var q := Apply(cmd, p).value;
    forall s | Held(p, s) ensures Held(q, s) {}
  }

  lemma StoreProtects(p: Panel, cmd: Cmd)
    requires PanelWf(p) && Apply(cmd, p).Some? && (cmd.Promote? || cmd.CaptureBaseline? || cmd.Upload?)
    ensures Protects(p, Apply(cmd, p).value)
  {
    if cmd.Promote? { PromoteKeeps(p, cmd.dir); }
    else if cmd.CaptureBaseline? { CaptureKeeps(p, cmd.id, cmd.snapshot); }
    else { SameStoresKeep(p, Apply(cmd, p).value); }
  }

  lemma GentleProtects(p: Panel, cmd: Cmd, link: Option<Target>)
    requires PanelWf(p) && Gentle(cmd, link) && LinksKnown(p, cmd) && Apply(cmd, p).Some?
    ensures Protects(p, Apply(cmd, p).value)
  {
    var dir := if cmd.MoveLinkTemp? then Some(cmd.dir) else None;
    assert Gentle(cmd, dir);
    ApplyKeeps(cmd, dir, p);
  }

  lemma ShellProtects(w: World, panel: Fingerprint, cmd: Cmd)
    requires Enabled(w, Shell(panel, cmd)) && !cmd.FinalizeBaseline? && PanelWf(w.panels[panel])
    ensures Protects(w.panels[panel], Apply(cmd, w.panels[panel]).value)
  {
    var p := w.panels[panel];
    hide Protects, PanelWf, Apply;
    if w.active.Some? && Discards(cmd, w.active.value.Dir()) {
      DiscardProtects(p, cmd, w.active.value.Dir());
    } else if cmd.Promote? || cmd.CaptureBaseline? || cmd.Upload? {
      StoreProtects(p, cmd);
    } else {
      GentleProtects(p, cmd, if cmd.MoveLinkTemp? then Some(cmd.dir) else None);
    }
  }

  lemma TornProtects(p: Panel, wreck: Trees)
    requires PanelWf(p)
    ensures Protects(p, p.(trees := wreck))
  {
    forall s | Held(p, s) ensures Held(p.(trees := wreck), s) {}
  }

  /** Deleting one capture leaves every other capture and its pin alone. */
  lemma FinalizeKeepsWf(p: Panel, id: Uuid)
    requires PanelWf(p)
    ensures PanelWf(Apply(FinalizeBaseline(id), p).value)
  {
  }

  /** A panel step may change `p` to `q` on one panel: the retained invariant survives. */
  lemma PanelStepKeepsRetained(w: World, v: World, panel: Fingerprint, q: Panel)
    requires PanelsOk(w) && AllRetainedOk(w) && OnePerPanel(w) && panel in w.panels
    requires v.retained == w.retained && v.panels == w.panels[panel := q]
    requires Protects(w.panels[panel], q)
    ensures PanelsOk(v) && AllRetainedOk(v) && OnePerPanel(v)
  {
    hide Sound, PanelWf, Held;
    forall t | t in v.retained ensures RetainedOk(v, t) { assert RetainedOk(w, t); }
  }

  /** A capture that is being finalized belongs to no other transaction of its panel. */
  lemma FinalizedIsAlone(w: World, panel: Fingerprint, id: Uuid) returns (u: Uuid)
    requires OnePerPanel(w) && Enabled(w, Shell(panel, FinalizeBaseline(id)))
    ensures u in w.retained && w.retained[u].state.Finalizing? && w.retained[u].record.Panel() == panel
    ensures forall t :: t in w.retained && t != u ==> w.retained[t].record.Panel() != panel
  {
    hide Apply, PanelWf, Held, Sound;
    u :| u in w.retained && FinalizedBy(w.retained[u], panel, id);
  }

  lemma FinalizeKeepsRetained(w: World, v: World, panel: Fingerprint, id: Uuid)
    requires PanelsOk(w) && AllRetainedOk(w) && OnePerPanel(w)
    requires Enabled(w, Shell(panel, FinalizeBaseline(id))) && v == Do(w, Shell(panel, FinalizeBaseline(id)))
    ensures PanelsOk(v) && AllRetainedOk(v) && OnePerPanel(v)
  {
    hide Permitted, PanelWf, Held, Sound, Apply;
    var u := FinalizedIsAlone(w, panel, id);
    FinalizeKeepsWf(w.panels[panel], id);
    forall t | t in v.retained ensures RetainedOk(v, t) {
      assert RetainedOk(w, t);
      if t != u { assert w.retained[t].record.Panel() != panel; }
    }
  }

  lemma RestartKeepsCandidate(p: Panel, cmd: Cmd, staged: StagedRelease)
    requires RunsCandidate(p, staged) && Restarts(cmd, staged.Dir()) && Apply(cmd, p).Some?
    ensures RunsCandidate(Apply(cmd, p).value, staged)
  {
    hide LaunchOf, Launched;
    var q := Apply(cmd, p).value;
    StartLaunches(p, Bridge);
    FewerLaunched(p, p.(active := p.active - {Bridge}));
    RestartsNothingElse(p, cmd, staged.Dir());
  }

  lemma RestartsNothingElse(p: Panel, cmd: Cmd, dir: Target)
    requires Restarts(cmd, dir) && Apply(cmd, p).Some?
    ensures var q := Apply(cmd, p).value;
            && q.active - {Bridge} == p.active - {Bridge} && q == p.(active := q.active, started := q.started)
            && (q == p || q == p.(active := p.active - {Bridge}) || q == Started(p, Bridge))
  {
    hide LaunchOf;
    assert Started(p, Bridge).active - {Bridge} == p.active - {Bridge};
    assert (p.active - {Bridge}) - {Bridge} == p.active - {Bridge};
  }

  lemma CandidateStepKeepsPrior(p: Panel, cmd: Cmd, dir: Target, s: Snapshot)
    requires OnCandidate(cmd, dir) && Apply(cmd, p).Some?
    ensures Probe(Apply(cmd, p).value) == Probe(p) && Apply(cmd, p).value.trees == p.trees
    ensures Apply(cmd, p).value.link == p.link
  {
    hide Probe;
    SameReading(p, Apply(cmd, p).value);
  }

  /** Uploads and releases are not what the snapshot probe reads. */
  lemma SameReading(p: Panel, q: Panel)
    requires q == p.(uploads := q.uploads, releases := q.releases)
    ensures Probe(q) == Probe(p)
  {
  }

  lemma ShellKeepsUnpinned(p: Panel, cmd: Cmd, dir: Target)
    requires Unpinned(p, dir) && Apply(cmd, p).Some? && !cmd.CaptureBaseline? && !cmd.FinalizeBaseline?
    ensures Unpinned(Apply(cmd, p).value, dir)
  {
    hide Probe, Units, BaselineIntact, ValidSnapshot, Correlatable, LaunchOf, Launched, Prunable;
  }

  lemma ShellKeepsFacts(w: World, panel: Fingerprint, cmd: Cmd)
    requires ActiveOk(w) && Enabled(w, Shell(panel, cmd)) && w.active.Some? && w.active.value.Panel() == panel
    ensures var r := w.active.value;
            Facts(w, r, w.retained[r.transaction], Apply(cmd, w.panels[panel]).value)
  {
    var r := w.active.value;
    var p := w.panels[panel];
    hide Apply, Probe, RunsCandidate;
    match r.phase
    case Staged => CandidateStepKeepsPrior(p, cmd, r.Dir(), r.snapshot);
    case Activated => if !w.disturbed && !r.operation.Update? { RestartKeepsCandidate(p, cmd, r.Candidate()); }
    case Verifying => if !w.disturbed && !r.operation.Update? { RestartKeepsCandidate(p, cmd, r.Candidate()); }
    case RollbackPending =>
      if w.retained[r.transaction].state.Restored? {
        CandidateStepKeepsPrior(p, cmd, r.Dir(), r.snapshot);
        DiscardKeepsGone(p, cmd, r.Dir());
      }
    case _ =>
  }

  lemma DiscardKeepsGone(p: Panel, cmd: Cmd, dir: Target)
    requires Discards(cmd, dir) && Apply(cmd, p).Some?
    ensures Gone(p, dir) ==> Gone(Apply(cmd, p).value, dir)
  {
  }

  lemma ShellKeepsActive(w: World, panel: Fingerprint, cmd: Cmd)
    requires ActiveOk(w) && Enabled(w, Shell(panel, cmd))
    ensures ActiveOk(Do(w, Shell(panel, cmd)))
  {
    var v := Do(w, Shell(panel, cmd));
    if w.active.Some? && w.active.value.Panel() == panel {
      ShellKeepsFacts(w, panel, cmd);
      var r := w.active.value;
      hide Apply, Facts, Fits;
      assert Facts(w, r, w.retained[r.transaction], v.panels[panel]) ==>
               Facts(v, r, v.retained[r.transaction], v.panels[panel]) by {
        FactsOfWorld(w, v, r, w.retained[r.transaction], v.panels[panel]);
      }
      if !r.operation.ManualRollback? {
        ShellKeepsUnpinned(w.panels[panel], cmd, r.Dir());
      }
    } else if w.active.Some? {
      var r := w.active.value;
      FactsOfWorld(w, v, r, w.retained[r.transaction], w.panels[r.Panel()]);
    }
  }

  lemma FactsOfWorld(w: World, v: World, r: Record, e: Retained, p: Panel)
    requires v.disturbed == w.disturbed && v.observed == w.observed
    ensures Facts(w, r, e, p) ==> Facts(v, r, e, p)
  {
  }

  lemma ShellKeepsInv(w: World, panel: Fingerprint, cmd: Cmd)
    requires Inv(w) && Enabled(w, Shell(panel, cmd))
    ensures Inv(Do(w, Shell(panel, cmd)))
  {
    var v := Do(w, Shell(panel, cmd));
    ShellKeepsActive(w, panel, cmd);
    hide ActiveOk, PanelsOk, AllRetainedOk, OnePerPanel;
    if cmd.FinalizeBaseline? {
      FinalizeKeepsRetained(w, v, panel, cmd.id);
    } else {
      assert PanelWf(w.panels[panel]) by { PanelIsOk(w, panel); }
      ShellProtects(w, panel, cmd);
      PanelStepKeepsRetained(w, v, panel, v.panels[panel]);
    }
  }

  lemma PanelIsOk(w: World, panel: Fingerprint)
    requires PanelsOk(w) && panel in w.panels
    ensures PanelWf(w.panels[panel])
  {
  }

  lemma TornKeepsActive(w: World, panel: Fingerprint, cmd: Cmd, wreck: Trees)
    requires ActiveOk(w) && Enabled(w, Torn(panel, cmd, wreck))
    ensures ActiveOk(Do(w, Torn(panel, cmd, wreck)))
  {
    var v := Do(w, Torn(panel, cmd, wreck));
    hide Probe, RunsCandidate, SameTransaction;
    if w.active.Some? && w.active.value.Panel() != panel {
      var r := w.active.value;
      FactsOfWorld(w, v, r, w.retained[r.transaction], w.panels[r.Panel()]);
    }
  }

  lemma TornKeepsInv(w: World, panel: Fingerprint, cmd: Cmd, wreck: Trees)
    requires Inv(w) && Enabled(w, Torn(panel, cmd, wreck))
    ensures Inv(Do(w, Torn(panel, cmd, wreck)))
  {
    var v := Do(w, Torn(panel, cmd, wreck));
    TornKeepsActive(w, panel, cmd, wreck);
    hide ActiveOk, AllRetainedOk, OnePerPanel, Permitted, Protects, PanelWf;
    PanelIsOk(w, panel);
    TornProtects(w.panels[panel], wreck);
    PanelStepKeepsRetained(w, v, panel, v.panels[panel]);
  }

  // ----- other writers -----

  /** Another writer's step leaves no candidate behind and never selects one. */
  lemma OutsideKeepsGone(p: Panel, cmd: Cmd, dir: Target)
    requires Gentle(cmd, None) && Apply(cmd, p).Some?
    ensures var q := Apply(cmd, p).value;
            (Gone(p, dir) ==> Gone(q, dir)) && (p.link != Some(dir) ==> q.link != Some(dir))
  {
    hide Gone, Apply, Gentle;
    OutsideKeepsLink(p, cmd);
    if Gone(p, dir) { OutsideAddsNothing(p, cmd, dir); }
  }

  lemma OutsideKeepsLink(p: Panel, cmd: Cmd)
    requires Gentle(cmd, None) && Apply(cmd, p).Some?
    ensures Apply(cmd, p).value.link.None? || Apply(cmd, p).value.link == p.link
  {
    hide Probe, Units, BaselineIntact, ValidSnapshot, Correlatable, LaunchOf;
  }

  lemma OutsideAddsNothing(p: Panel, cmd: Cmd, dir: Target)
    requires Gentle(cmd, None) && Apply(cmd, p).Some? && Gone(p, dir)
    ensures Gone(Apply(cmd, p).value, dir)
  {
    hide Probe, Units, BaselineIntact, ValidSnapshot, Correlatable, LaunchOf;
  }

  function Wrecked(p: Panel, cmd: Cmd, wreck: Option<Trees>): Panel
    requires wreck.None? ==> Apply(cmd, p).Some?
  {
    if wreck.Some? then p.(trees := wreck.value) else Apply(cmd, p).value
  }

  lemma OutsideProtects(p: Panel, cmd: Cmd, wreck: Option<Trees>)
    requires PanelWf(p) && Gentle(cmd, None) && (wreck.None? ==> Apply(cmd, p).Some?)
    ensures Protects(p, Wrecked(p, cmd, wreck))
  {
    hide Protects, PanelWf, Apply;
    if wreck.Some? { TornProtects(p, wreck.value); } else { GentleProtects(p, cmd, None); }
  }

  /** What a phase says regardless of other writers survives them. */
  lemma OutsideKeepsFacts(w: World, v: World, r: Record, e: Retained, p: Panel, cmd: Cmd, wreck: Option<Trees>)
    requires Facts(w, r, e, p) && v.observed == w.observed && v.disturbed
    requires Gentle(cmd, None) && (wreck.None? ==> Apply(cmd, p).Some?)
    ensures Facts(v, r, e, Wrecked(p, cmd, wreck))
  {
    hide Apply, Probe, RunsCandidate, Prior, IsPrior, Shown, Gentle;
    if wreck.None? { OutsideKeepsGone(p, cmd, r.Dir()); }
  }

  lemma OutsideKeepsActive(w: World, panel: Fingerprint, cmd: Cmd, wreck: Option<Trees>)
    requires ActiveOk(w) && Enabled(w, Outside(panel, cmd, wreck))
    ensures ActiveOk(Do(w, Outside(panel, cmd, wreck)))
  {
    var v := Do(w, Outside(panel, cmd, wreck));
    hide Apply, Facts, Fits;
    if w.active.Some? {
      var r := w.active.value;
      var e := w.retained[r.transaction];
      if r.Panel() == panel {
        OutsideKeepsFacts(w, v, r, e, w.panels[panel], cmd, wreck);
        if wreck.None? && !r.operation.ManualRollback? { ShellKeepsUnpinned(w.panels[panel], cmd, r.Dir()); }
      } else {
        FactsOfWorld(w, v, r, e, w.panels[r.Panel()]);
      }
    }
  }

  lemma OutsideKeepsInv(w: World, panel: Fingerprint, cmd: Cmd, wreck: Option<Trees>)
    requires Inv(w) && Enabled(w, Outside(panel, cmd, wreck))
    ensures Inv(Do(w, Outside(panel, cmd, wreck)))
  {
    var v := Do(w, Outside(panel, cmd, wreck));
    OutsideKeepsActive(w, panel, cmd, wreck);
    hide ActiveOk, AllRetainedOk, OnePerPanel, Protects, PanelWf, Apply;
    PanelIsOk(w, panel);
    OutsideProtects(w.panels[panel], cmd, wreck);
    PanelStepKeepsRetained(w, v, panel, v.panels[panel]);
  }

  // ----- store steps -----

  lemma ArmKeepsInv(w: World, r: Record)
    requires Inv(w) && Enabled(w, Arm(r))
    ensures Inv(Do(w, Arm(r)))
  {
    hide Sound, PanelWf, Held, Facts, IsPrior, Unpinned, Fits, Apply, SameTransaction;
    var v := Do(w, Arm(r));
    forall t | t in v.retained ensures RetainedOk(v, t) {
      if t == r.transaction { TargetIsNotFresh(w, r); } else { assert RetainedOk(w, t); }
    }
  }

  lemma TargetIsNotFresh(w: World, r: Record)
    requires Enabled(w, Arm(r))
    ensures r.snapshot.target != Some(r.Dir())
  {
  }

  lemma SaveStagedKeepsInv(w: World, r: Record)
    requires Inv(w) && Enabled(w, SaveStaged(r))
    ensures Inv(Do(w, SaveStaged(r)))
  {
    var v := Do(w, SaveStaged(r));
    hide Sound, Held, IsPrior;
    PanelIsOk(w, r.Panel());
    assert RetainedOk(w, r.transaction);
    forall t | t in v.retained ensures RetainedOk(v, t) { assert RetainedOk(w, t); }
  }

  /** Steps that leave the panels and every retained record's transaction data alone. */
  lemma SameRetainedOk(w: World, v: World)
    requires PanelsOk(w) && AllRetainedOk(w) && OnePerPanel(w)
    requires v.retained == w.retained && v.panels == w.panels
    ensures PanelsOk(v) && AllRetainedOk(v) && OnePerPanel(v)
  {
    forall t | t in v.retained ensures RetainedOk(v, t) { assert RetainedOk(w, t); }
  }

  /** A record's phase and error are no part of which transaction it is. */
  lemma SameTransactionStays(r: Record, s: Record, e: Record)
    requires SameTransaction(r, e) && s == r.(phase := s.phase, error := s.error)
    ensures SameTransaction(s, e)
  {
  }

  lemma SaveTransitionKeepsInv(w: World, phase: Phase, error: Option<string>)
    requires Inv(w) && Enabled(w, SaveTransition(phase, error))
    ensures Inv(Do(w, SaveTransition(phase, error)))
  {
    hide AllRetainedOk, OnePerPanel, PanelsOk, RunsCandidate, IsPrior, IsPriorUnder, Gone, Unpinned, Apply,
         SameTransaction, Proven;
    var v := Do(w, SaveTransition(phase, error));
    SameRetainedOk(w, v);
    SameTransactionStays(w.active.value, v.active.value, w.retained[w.active.value.transaction].record);
  }

  lemma SaveErrorKeepsInv(w: World, error: Option<string>)
    requires Inv(w) && Enabled(w, SaveError(error))
    ensures Inv(Do(w, SaveError(error)))
  {
    hide AllRetainedOk, OnePerPanel, PanelsOk, RunsCandidate, IsPrior, IsPriorUnder, Gone, Unpinned, Apply,
         SameTransaction, Proven, Fits;
    var v := Do(w, SaveError(error));
    SameRetainedOk(w, v);
    if ActiveOk(w) {
      SameTransactionStays(w.active.value, v.active.value, w.retained[w.active.value.transaction].record);
    }
  }

  /** A retained entry replaced by one for the same record, still restorable unless finalizing. */
  lemma ReplaceKeepsRetained(w: World, v: World, t: Uuid, e: Retained)
    requires PanelsOk(w) && AllRetainedOk(w) && OnePerPanel(w) && t in w.retained
    requires e.record == w.retained[t].record
    requires !e.state.Finalizing? ==> !w.retained[t].state.Finalizing? && !e.ownerless
    requires e.state.Restored? ==> Proven(e)
    requires v.retained == w.retained[t := e] && v.panels == w.panels
    ensures PanelsOk(v) && AllRetainedOk(v) && OnePerPanel(v)
  {
    hide Sound, Held, PanelWf, Onboarding;
    forall u | u in v.retained ensures RetainedOk(v, u) { assert RetainedOk(w, u); assert RetainedOk(w, t); }
  }

  lemma RetainKeepsActive(w: World, t: Uuid, state: RetainedState, evidence: Option<Uuid>)
    requires ActiveOk(w) && MayRetain(w, t, state, evidence)
    requires w.active.Some? && w.active.value.transaction in w.retained ==> RetainedOk(w, w.active.value.transaction)
    ensures ActiveOk(Retain(w, t, state, evidence))
  {
    hide RunsCandidate, IsPrior, IsPriorUnder, Sound, Held, Unpinned;
  }

  lemma SaveRetainedKeepsInv(w: World, t: Uuid, state: RetainedState, evidence: Option<Uuid>)
    requires Inv(w) && MayRetain(w, t, state, evidence)
    ensures Inv(Retain(w, t, state, evidence))
  {
    hide Facts, Fits, Sound, Held, PanelWf, IsPrior, IsPriorUnder, Unpinned, PanelsOk;
    var v := Retain(w, t, state, evidence);
    assert RetainedOk(w, t);
    ReplaceKeepsRetained(w, v, t, v.retained[t]);
    RetainKeepsActive(w, t, state, evidence);
  }

  lemma SaveRestoreKeepsInv(w: World, t: Uuid, password: string)
    requires Inv(w) && Enabled(w, SaveRestore(t, password))
    ensures Inv(Do(w, SaveRestore(t, password)))
  {
    hide OnePerPanel, PanelsOk, RunsCandidate, IsPrior, IsPriorUnder, Sound, Held, Apply, Gone, Shown;
    var v := Do(w, SaveRestore(t, password));
    SameRetainedOk(w, v);
    assert RetainedOk(w, t);
  }

  lemma CommitKeepsActive(w: World)
    requires ActiveOk(w) && Enabled(w, SaveCommitted)
    ensures ActiveOk(w.(active := Some(w.active.value.(phase := Committed))))
  {
    hide RunsCandidate, IsPrior, IsPriorUnder, Gone, Unpinned;
  }

  lemma CommitKeepsInv(w: World)
    requires Inv(w) && Enabled(w, SaveCommitted)
    ensures Inv(w.(active := Some(w.active.value.(phase := Committed))))
  {
    hide ActiveOk, AllRetainedOk, OnePerPanel, PanelsOk;
    CommitKeepsActive(w);
    SameRetainedOk(w, w.(active := Some(w.active.value.(phase := Committed))));
  }

  lemma RolledBackKeepsActive(w: World)
    requires ActiveOk(w) && Enabled(w, SaveRolledBack)
    ensures ActiveOk(w.(active := Some(w.active.value.(phase := RolledBack))))
  {
    hide RunsCandidate, IsPrior, IsPriorUnder, Gone, Unpinned;
  }

  lemma RolledBackKeepsInv(w: World)
    requires Inv(w) && Enabled(w, SaveRolledBack)
    ensures Inv(w.(active := Some(w.active.value.(phase := RolledBack))))
  {
    hide ActiveOk, AllRetainedOk, OnePerPanel, PanelsOk;
    RolledBackKeepsActive(w);
    SameRetainedOk(w, w.(active := Some(w.active.value.(phase := RolledBack))));
  }

  lemma ClearKeepsInv(w: World)
    requires Inv(w)
    ensures Inv(w.(active := None))
  {
    SameRetainedOk(w, w.(active := None));
  }

  lemma EndStepKeepsInv(w: World, step: Step)
    requires Inv(w) && Enabled(w, step) && (step.SaveCommitted? || step.SaveRolledBack? || step.Clear?)
    ensures Inv(Do(w, step))
  {
    hide Inv, MayClear;
    match step
    case SaveCommitted => CommitKeepsInv(w);
    case SaveRolledBack => RolledBackKeepsInv(w);
    case _ => ClearKeepsInv(w);
  }

  lemma ObserveKeepsInv(w: World, deployment: Uuid)
    requires Inv(w)
    ensures Inv(w.(observed := w.observed[deployment := w.panels]))
  {
    hide AllRetainedOk, OnePerPanel, PanelsOk, RunsCandidate, IsPrior, IsPriorUnder, Gone, Fits, SameTransaction,
         Unpinned, Prior;
    var v := w.(observed := w.observed[deployment := w.panels]);
    SameRetainedOk(w, v);
  }

  lemma MarkOwnerlessKeepsInv(w: World, t: Uuid)
    requires Inv(w) && Enabled(w, MarkOwnerless(t))
    ensures Inv(Do(w, MarkOwnerless(t)))
  {
    hide AllRetainedOk, OnePerPanel, PanelsOk, OwnerlessFinalizationAllowed;
    ReplaceKeepsRetained(w, Do(w, MarkOwnerless(t)), t, w.retained[t].(state := Finalizing, ownerless := true));
  }

  lemma RemoveRetainedKeepsInv(w: World, t: Uuid)
    requires Inv(w) && t in w.retained && w.retained[t].state.Finalizing?
    ensures Inv(w.(retained := w.retained - {t}))
  {
    var v := w.(retained := w.retained - {t});
    hide RunsCandidate, IsPrior, IsPriorUnder, Sound, Held, PanelWf;
    forall u | u in v.retained ensures RetainedOk(v, u) { assert RetainedOk(w, u); }
  }

  lemma RetainStepKeepsInv(w: World, t: Uuid, state: RetainedState, evidence: Option<Uuid>)
    requires Inv(w) && Enabled(w, SaveRetained(t, state, evidence))
    ensures Inv(Do(w, SaveRetained(t, state, evidence)))
  {
    hide Inv, MayRetain;
    SaveRetainedKeepsInv(w, t, state, evidence);
  }

  lemma RemoveStepKeepsInv(w: World, t: Uuid)
    requires Inv(w) && Enabled(w, RemoveRetained(t))
    ensures Inv(Do(w, RemoveRetained(t)))
  {
    hide Inv;
    RemoveRetainedKeepsInv(w, t);
  }

  lemma ObserveStepKeepsInv(w: World, deployment: Uuid)
    requires Inv(w)
    ensures Inv(Do(w, Observe(deployment)))
  {
    hide Inv;
    ObserveKeepsInv(w, deployment);
  }

  /** The invariant is inductive. */
  lemma StepKeepsInv(w: World, step: Step)
    requires Inv(w) && Enabled(w, step)
    ensures Inv(Do(w, step))
  {
    hide Inv, Enabled, Do;
    match step
    case Arm(r) => ArmKeepsInv(w, r);
    case SaveStaged(r) => SaveStagedKeepsInv(w, r);
    case SaveTransition(phase, error) => SaveTransitionKeepsInv(w, phase, error);
    case SaveError(error) => SaveErrorKeepsInv(w, error);
    case SaveRetained(t, state, evidence) => RetainStepKeepsInv(w, t, state, evidence);
    case SaveRestore(t, password) => SaveRestoreKeepsInv(w, t, password);
    case MarkOwnerless(t) => MarkOwnerlessKeepsInv(w, t);
    case RemoveRetained(t) => RemoveStepKeepsInv(w, t);
    case Observe(d) => ObserveStepKeepsInv(w, d);
    case Shell(panel, cmd) => ShellKeepsInv(w, panel, cmd);
    case Torn(panel, cmd, wreck) => TornKeepsInv(w, panel, cmd, wreck);
    case Outside(panel, cmd, wreck) => OutsideKeepsInv(w, panel, cmd, wreck);
    case _ => EndStepKeepsInv(w, step);
  }

  /** Every crash state of every run satisfies the invariant. */
  lemma {:induction false} RunKeepsInv(worlds: seq<World>, i: nat)
    requires Run(worlds) && Inv(worlds[0]) && i < |worlds|
    ensures Inv(worlds[i])
  {
    hide Inv, Enabled, Do;
    if i > 0 {
      RunKeepsInv(worlds, i - 1);
      assert Next(worlds[i - 1], worlds[i]);
      var step :| Enabled(worlds[i - 1], step) && worlds[i] == Do(worlds[i - 1], step);
      StepKeepsInv(worlds[i - 1], step);
    }
  }

  // ----- clearing the journal -----

  /** Back on the prior state, candidate gone, restore recorded as verified. */
  ghost predicate Back(r: Record, e: Retained, p: Panel) {
    e.state.Restored? && Gone(p, r.Dir()) && Prior(r, e, p)
  }

  /** The journal ended on what its health was observed for, after the durable commit. */
  ghost predicate EndedCommitted(w: World, r: Record, p: Panel) {
    r.phase.Committed? && r.transaction in w.observed && (w.disturbed || Shown(w, r, p))
  }

  /** It ended on the prior state, proved. */
  ghost predicate EndedRestored(w: World, r: Record, e: Retained, p: Panel) {
    && (r.phase.RollbackPending? || r.phase.RolledBack?)
    && e.state.Restored? && Proven(e) && Gone(p, r.Dir()) && (w.disturbed || Back(r, e, p))
  }

  /** It never activated anything. */
  ghost predicate EndedUntouched(r: Record, p: Panel, disturbed: bool) {
    r.phase.Staged? && Gone(p, r.Dir()) && (disturbed || IsPrior(p, r.snapshot))
  }

  lemma ClearIsSettled(w: World)
    requires Inv(w) && MayClear(w)
    ensures ActiveOnPanel(w)
    ensures var r := w.active.value;
            var e := w.retained[r.transaction];
            var p := w.panels[r.Panel()];
            EndedCommitted(w, r, p) || EndedRestored(w, r, e, p) || EndedUntouched(r, p, w.disturbed)
    ensures var r := w.active.value;
            r.transaction in w.retained && !w.retained[r.transaction].state.Finalizing?
            && Held(w.panels[r.Panel()], r.snapshot)
  {
    hide RunsCandidate, IsPrior, IsPriorUnder, Gone, Unpinned, Sound, Held, Shown;
    assert RetainedOk(w, w.active.value.transaction);
  }

  lemma OnlyClearClears(w: World, step: Step)
    requires Enabled(w, step) && w.active.Some? && Do(w, step).active.None?
    ensures MayClear(w) && Do(w, step) == w.(active := None)
  {
    hide MayClear, MayTransition, MayRetain, Permitted, IsPrior, Apply, Gentle, Sound, Held;
  }

  /** How it ended does not depend on what the journal holds now. */
  lemma EndedOfWorld(w: World, v: World)
    requires v == w.(active := v.active)
    ensures forall r, p :: EndedCommitted(w, r, p) <==> EndedCommitted(v, r, p)
    ensures forall r, e, p :: EndedRestored(w, r, e, p) <==> EndedRestored(v, r, e, p)
  {
    hide RunsCandidate, Back, Proven, Gone;
  }

  /**
   * Crash atomicity: in every run, with a crash allowed after any step, any number of recoveries and
   * other writers acting at any moment, the active journal is cleared only with health observed and the
   * commit durable, or a restore proved and its candidate gone, or the candidate gone before anything
   * was activated; and unless another writer has acted since, with the panel exactly so: on what was
   * observed, back on its prior state, or never touched. The retained rollback is always still there, held.
   */
  lemma CrashAtomicity(worlds: seq<World>, i: nat)
    requires Run(worlds) && Inv(worlds[0])
    requires i + 1 < |worlds| && worlds[i].active.Some? && worlds[i + 1].active.None?
    ensures var r := worlds[i].active.value;
            var w := worlds[i + 1];
            && r.transaction in w.retained && r.Panel() in w.panels
            && var e, p := w.retained[r.transaction], w.panels[r.Panel()];
               && (EndedCommitted(w, r, p) || EndedRestored(w, r, e, p) || EndedUntouched(r, p, w.disturbed))
               && !e.state.Finalizing? && Held(p, r.snapshot)
  {
    hide Inv, Enabled, Do, EndedCommitted, EndedRestored, EndedUntouched, MayClear, Held;
    RunKeepsInv(worlds, i);
    assert Next(worlds[i], worlds[i + 1]);
    var step :| Enabled(worlds[i], step) && worlds[i + 1] == Do(worlds[i], step);
    OnlyClearClears(worlds[i], step);
    ClearIsSettled(worlds[i]);
    EndedOfWorld(worlds[i], worlds[i + 1]);
  }

  /** What a promoted release holds never changes, whoever acts, for as long as it is there. */
  lemma StepKeepsFiles(w: World, step: Step, panel: Fingerprint, dir: Target)
    requires Enabled(w, step) && panel in w.panels && dir in w.panels[panel].releases
    requires panel in Do(w, step).panels && dir in Do(w, step).panels[panel].releases
    ensures Do(w, step).panels[panel].releases[dir].files == w.panels[panel].releases[dir].files
  {
    hide Permitted, MayRetain, MayTransition, MayClear, Apply, RestoreRecord, Gentle;
    match step
    case Shell(_, cmd) => ApplyKeepsFiles(cmd, w.panels[panel], dir);
    case Outside(_, cmd, wreck) => ApplyKeepsFiles(cmd, w.panels[panel], dir);
    case _ =>
  }

  lemma ApplyKeepsFiles(cmd: Cmd, p: Panel, dir: Target)
    ensures Apply(cmd, p).Some? && dir in p.releases && dir in Apply(cmd, p).value.releases ==>
              Apply(cmd, p).value.releases[dir].files == p.releases[dir].files
  {
    hide Apply;
    if cmd.Promote? || cmd.Prune? || cmd.CaptureBaseline? || cmd.FinalizeBaseline? {
      StoreKeepsFiles(cmd, p, dir);
    } else {
      OtherKeepReleases(cmd, p);
    }
  }

  lemma StoreKeepsFiles(cmd: Cmd, p: Panel, dir: Target)
    requires cmd.Promote? || cmd.Prune? || cmd.CaptureBaseline? || cmd.FinalizeBaseline?
    ensures Apply(cmd, p).Some? && dir in p.releases && dir in Apply(cmd, p).value.releases ==>
              Apply(cmd, p).value.releases[dir].files == p.releases[dir].files
  {
    hide Probe;
  }

  lemma OtherKeepReleases(cmd: Cmd, p: Panel)
    requires !cmd.Promote? && !cmd.Prune? && !cmd.CaptureBaseline? && !cmd.FinalizeBaseline?
    ensures Apply(cmd, p).Some? ==> Apply(cmd, p).value.releases == p.releases
  {
    hide Probe, LaunchOf, Units, BaselineIntact, ValidSnapshot, Correlatable, Prunable, Pin, ProbeLayout;
  }

  /** The files of a release are the ones it was promoted with, as long as it is there. */
  lemma {:induction false} ReleaseFilesStay(worlds: seq<World>, i: nat, j: nat, panel: Fingerprint, dir: Target)
    requires Run(worlds) && i <= j < |worlds|
    requires forall k :: i <= k <= j ==> panel in worlds[k].panels && dir in worlds[k].panels[panel].releases
    ensures worlds[j].panels[panel].releases[dir].files == worlds[i].panels[panel].releases[dir].files
  {
    hide Enabled, Do;
    if i < j {
      ReleaseFilesStay(worlds, i, j - 1, panel, dir);
      assert Next(worlds[j - 1], worlds[j]);
      var step :| Enabled(worlds[j - 1], step) && worlds[j] == Do(worlds[j - 1], step);
      StepKeepsFiles(worlds[j - 1], step, panel, dir);
    }
  }

  /** Dropping the correlation lines, the two environment files read the same. */
  lemma {:induction false} CorrelationOnly(content: Content, deployment: Uuid)
    ensures WithoutDeployment(Correlate(content, deployment)) == WithoutDeployment(content)
  {
    WithoutIsIdempotent(content);
    var line := DeploymentKey + DeploymentText(deployment);
    assert LeftStrip(line) == line;
    WithoutConcat(WithoutDeployment(content), [line]);
    assert WithoutDeployment([line]) == [];
  }

  lemma {:induction false} WithoutConcat(a: Content, b: Content)
    ensures WithoutDeployment(a + b) == WithoutDeployment(a) + WithoutDeployment(b)
  {
    if a == [] {
      assert a + b == b;
    } else {
      assert (a + b)[1..] == a[1..] + b;
      WithoutConcat(a[1..], b);
    }
  }

  lemma {:induction false} WithoutIsIdempotent(a: Content)
    ensures WithoutDeployment(WithoutDeployment(a)) == WithoutDeployment(a)
  {
    if a != [] {
      WithoutIsIdempotent(a[1..]);
      if !IsDeploymentLine(a[0]) { WithoutConcat([a[0]], WithoutDeployment(a[1..])); }
    }
  }

  // ----- the two stores -----

  /** An active record has its retained entry, in a state that fits its phase and never finalizing; from
      verifying on, its health was observed; and no two entries share a panel. */
  ghost predicate StoresMatch(w: World) {
    && (w.active.Some? ==>
          var r := w.active.value;
          && r.transaction in w.retained
          && var e := w.retained[r.transaction];
             && SameTransaction(r, e.record) && !e.state.Finalizing? && Fits(r.phase, e)
             && (r.phase.Verifying? || r.phase.PendingConfigCommit? || r.phase.Committed? ==>
                   r.transaction in w.observed))
    && OnePerPanel(w)
  }

  lemma InvMatches(w: World)
    requires Inv(w)
    ensures StoresMatch(w)
  {
    hide AllRetainedOk, PanelsOk, RunsCandidate, IsPrior, IsPriorUnder, OnePerPanel, SameTransaction, Gone, Unpinned;
  }

  /** The journal and the retained rollbacks, never written together, agree in every crash state. */
  lemma StoresAgree(worlds: seq<World>, i: nat)
    requires Run(worlds) && Inv(worlds[0]) && i < |worlds|
    ensures StoresMatch(worlds[i])
  {
    hide Inv, StoresMatch, Next;
    RunKeepsInv(worlds, i);
    InvMatches(worlds[i]);
  }

  // ----- restorability -----

  /** Until its finalization is durable, a retained transaction's capture is on its panel, intact. */
  lemma Restorable(worlds: seq<World>, i: nat, t: Uuid)
    requires Run(worlds) && Inv(worlds[0]) && i < |worlds|
    requires t in worlds[i].retained && !worlds[i].retained[t].state.Finalizing?
    ensures var e := worlds[i].retained[t];
            e.record.Panel() in worlds[i].panels && Held(worlds[i].panels[e.record.Panel()], e.record.snapshot)
  {
    RunKeepsInv(worlds, i);
    hide ActiveOk, OnePerPanel, PanelsOk, Sound, Held;
    assert RetainedOk(worlds[i], t);
  }

  /** The release the link names, and the one any retained rollback would link, always exist. */
  lemma ReleasesExist(worlds: seq<World>, i: nat, panel: Fingerprint)
    requires Run(worlds) && Inv(worlds[0]) && i < |worlds| && panel in worlds[i].panels
    ensures var p := worlds[i].panels[panel];
            && (p.link.Some? ==> p.link.value in p.releases)
            && (forall t :: t in worlds[i].retained && !worlds[i].retained[t].state.Finalizing?
                  && worlds[i].retained[t].record.Panel() == panel && worlds[i].retained[t].record.snapshot.target.Some?
                  ==> worlds[i].retained[t].record.snapshot.target.value in p.releases)
  {
    RunKeepsInv(worlds, i);
    PanelIsOk(worlds[i], panel);
    hide ActiveOk, OnePerPanel, PanelsOk;
    forall t | t in worlds[i].retained && !worlds[i].retained[t].state.Finalizing?
        && worlds[i].retained[t].record.Panel() == panel && worlds[i].retained[t].record.snapshot.target.Some?
      ensures worlds[i].retained[t].record.snapshot.target.value in worlds[i].panels[panel].releases
    {
      assert RetainedOk(worlds[i], t);
    }
  }

  lemma FinalizingStep(w: World, step: Step, t: Uuid)
    requires Enabled(w, step) && t in w.retained && w.retained[t].state.Finalizing?
    ensures var v := Do(w, step);
            && (t in v.retained ==> v.retained[t].state.Finalizing? && v.retained[t].record == w.retained[t].record)
            && (t !in v.retained ==>
                  var e := w.retained[t];
                  e.record.Panel() in v.panels && e.record.snapshot.baseline.Some?
                  && e.record.snapshot.baseline.value.id !in v.panels[e.record.Panel()].baselines)
  {
    hide MayClear, MayTransition, Permitted, IsPrior, IsPriorUnder, Gone, Apply, Gentle, Sound, Held,
         OwnerlessFinalizationAllowed;
  }

  /** A finalizing entry changes in no step but its removal, which comes after its capture is gone. */
  lemma FinalizingOnlyEnds(worlds: seq<World>, i: nat, t: Uuid)
    requires Run(worlds) && Inv(worlds[0]) && i + 1 < |worlds|
    requires t in worlds[i].retained && worlds[i].retained[t].state.Finalizing?
    ensures t in worlds[i + 1].retained ==>
              worlds[i + 1].retained[t].state.Finalizing?
                && worlds[i + 1].retained[t].record == worlds[i].retained[t].record
    ensures t !in worlds[i + 1].retained ==>
              var e := worlds[i].retained[t];
              e.record.Panel() in worlds[i + 1].panels && e.record.snapshot.baseline.Some?
              && e.record.snapshot.baseline.value.id !in worlds[i + 1].panels[e.record.Panel()].baselines
  {
    hide Inv, Enabled, Do;
    assert Next(worlds[i], worlds[i + 1]);
    var step :| Enabled(worlds[i], step) && worlds[i + 1] == Do(worlds[i], step);
    FinalizingStep(worlds[i], step, t);
  }

  // ----- edges -----

  /** The journal phases a write may connect, for one transaction. */
  predicate JournalEdge(a: Phase, b: Phase) {
    a == b || b in Transitions(a) || b.RollbackPending? || (a.PendingConfigCommit? && b.Committed?)
      || (a.RollbackPending? && b.RolledBack?)
  }

  ghost predicate JournalEdgesOk(w: World, v: World) {
    && (w.active.Some? && v.active.Some? ==>
          v.active.value.transaction == w.active.value.transaction
          && JournalEdge(w.active.value.phase, v.active.value.phase))
    && (w.active.None? && v.active.Some? ==> v.active.value.phase.Staged? || v.active.value.phase.RollbackPending?)
    && (w.active.Some? && v.active.None? ==> w.active.value.phase in {Staged, Committed, RollbackPending, RolledBack})
  }

  ghost predicate RetainedEdgesOk(w: World, v: World) {
    && (forall t :: t in w.retained && t in v.retained ==>
          v.retained[t].state == w.retained[t].state || v.retained[t].state in RetainedEdges(w.retained[t].state))
    && (forall t :: t !in w.retained && t in v.retained ==> v.retained[t].state.Armed?)
    && (forall t :: t in w.retained && t !in v.retained ==> w.retained[t].state.Finalizing?)
  }

  lemma StepJournalEdges(w: World, step: Step)
    requires Inv(w) && Enabled(w, step)
    ensures JournalEdgesOk(w, Do(w, step))
  {
    hide Permitted, IsPrior, IsPriorUnder, Gone, RunsCandidate, Apply, ActiveOk, OnePerPanel, PanelsOk, Sound, Held,
         MayRetain;
    if step.SaveRestore? { assert RetainedOk(w, step.transaction); }
    hide AllRetainedOk, RetainedOk;
  }

  lemma StepRetainedEdges(w: World, step: Step)
    requires Enabled(w, step)
    ensures RetainedEdgesOk(w, Do(w, step))
  {
    hide Permitted, IsPrior, IsPriorUnder, Gone, RunsCandidate, Apply, Sound, Held, MayTransition, MayClear;
  }

  /** Every journal and retained edge any run takes is permitted, and a journal only starts staged or
      as a requested restore. */
  lemma EdgesPermitted(worlds: seq<World>, i: nat)
    requires Run(worlds) && Inv(worlds[0]) && i + 1 < |worlds|
    ensures JournalEdgesOk(worlds[i], worlds[i + 1]) && RetainedEdgesOk(worlds[i], worlds[i + 1])
  {
    hide Inv, Enabled, Do, JournalEdgesOk, RetainedEdgesOk;
    RunKeepsInv(worlds, i);
    assert Next(worlds[i], worlds[i + 1]);
    var step :| Enabled(worlds[i], step) && worlds[i + 1] == Do(worlds[i], step);
    StepJournalEdges(worlds[i], step);
    StepRetainedEdges(worlds[i], step);
  }
}
