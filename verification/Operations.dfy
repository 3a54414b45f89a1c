/** What the provisioner asks of a panel: staging, activation, restart, rollback and cleanup. */
module Operations {
  import opened Common
  import opened PanelState
  import opened PanelCommands
  import opened Correlation
  import opened Rollback
  import opened Activation
  import opened Records
  import opened Protocol
  import opened Safety
  import opened DurableSite

  // ----- which command lists a phase permits -----

  ghost predicate ListPermitted(w: World, panel: Fingerprint, cmds: seq<Cmd>, link: Option<Target>) {
    forall cmd :: cmd in cmds ==>
      Permitted(w, panel, cmd) && !cmd.Prune? && (cmd.MoveLinkTemp? ==> link == Some(cmd.dir))
  }

  /** The active record is in this phase on this panel. */
  ghost predicate ActiveIn(w: World, panel: Fingerprint, phase: Phase) {
    w.active.Some? && w.active.value.Panel() == panel && w.active.value.phase == phase
  }

  /** A restore of the active transaction is under way. */
  ghost predicate Restoring(w: World) {
    && ActiveOnPanel(w) && w.active.value.phase.RollbackPending?
    && w.retained[w.active.value.transaction].state.RestoreRequested?
  }

  lemma GentlePermitted(w: World, panel: Fingerprint, cmds: seq<Cmd>, link: Option<Target>)
    requires AllGentle(cmds, link)
    requires (ActiveIn(w, panel, ActivationPending) && link == Some(w.active.value.Dir()))
             || (Restoring(w) && panel == w.active.value.Panel() && link == w.active.value.snapshot.target)
    ensures ListPermitted(w, panel, cmds, link)
  {
    forall cmd | cmd in cmds
      ensures Permitted(w, panel, cmd) && !cmd.Prune? && (cmd.MoveLinkTemp? ==> link == Some(cmd.dir))
    {
      assert Gentle(cmd, link);
    }
  }

  lemma StagePermitted(w: World, panel: Fingerprint, staged: StagedRelease, files: map<Owned, Content>)
    requires ActiveIn(w, panel, Phase.Staged) && w.active.value.Dir() == staged.Dir()
    ensures ListPermitted(w, panel, StageCommands(staged, files), None)
  {
  }

  lemma CleanupPermitted(w: World, panel: Fingerprint, staged: StagedRelease)
    requires ActiveIn(w, panel, Phase.Staged) || ActiveIn(w, panel, ActivationPending)
             || (ActiveIn(w, panel, RollbackPending) && w.active.value.transaction in w.retained
                 && (w.retained[w.active.value.transaction].state.Restored?
                     || (w.retained[w.active.value.transaction].state.RestoreRequested?
                         && w.active.value.snapshot.layout.Absent?)))
    requires w.active.value.Dir() == staged.Dir()
    ensures Permitted(w, panel, RemoveUpload(staged.Dir())) && Permitted(w, panel, Prune(staged.Dir()))
  {
  }

  lemma RestartRestoredGentle(s: Snapshot, deployment: Uuid, scratch: Uuid)
    requires EnvFile in s.files
    ensures AllGentle(RestartRestoredCommands(s, deployment, scratch), s.target)
  {
    var env := Some(Correlated(s, deployment).files[EnvFile]);
    var staged := StagedRelease("recovery", scratch, {Bridge});
    GentleList([Stop(Bridge)], s.target);
    GentleList(RestoreFile(EnvFile, env, staged), s.target);
    GentleList([Start(Bridge)], s.target);
    hide AllGentle, RestoreFile, Correlated;
    GentleConcat(RestoreFile(EnvFile, env, staged), [Start(Bridge)], s.target);
    GentleConcat([Stop(Bridge)], RestoreFile(EnvFile, env, staged) + [Start(Bridge)], s.target);
  }

  // ----- facts about the active transaction -----

  lemma ActiveFacts(w: World)
    requires Inv(w) && w.active.Some?
    ensures ActiveOnPanel(w)
    ensures var r := w.active.value;
            var e := w.retained[r.transaction];
            var p := w.panels[r.Panel()];
            && e.record.snapshot == r.snapshot && e.record.Panel() == r.Panel() && e.record.Dir() == r.Dir()
            && e.record.Candidate() == r.Candidate()
            && Sound(r.snapshot) && Held(p, r.snapshot) && r.snapshot.target != Some(r.Dir())
            && !e.state.Finalizing? && Fits(r.phase, e) && PanelWf(p)
            && (!r.operation.ManualRollback? ==> Unpinned(p, r.Dir()))
            && (r.operation.ManualRollback? ==> r.phase.RollbackPending? || r.phase.RolledBack?)
  {
    hide Sound, Held, Facts, PanelWf;
    assert RetainedOk(w, w.active.value.transaction);
  }

  /** A staged candidate is neither pinned nor selected, whatever other writers do. */
  lemma StagedPrunable(w: World)
    requires Inv(w) && w.active.Some? && w.active.value.phase.Staged?
    ensures ActiveOnPanel(w) && Prunable(w.panels[w.active.value.Panel()], w.active.value.Dir())
    ensures w.disturbed || IsPrior(w.panels[w.active.value.Panel()], w.active.value.snapshot)
  {
    ActiveFacts(w);
    hide PanelsOk, OnePerPanel, AllRetainedOk, IsPrior;
  }

  // ----- what the lists leave -----

  /** The restored panel with its bridge restarted under a fresh deployment id. */
  function Restarted(p: Panel, s: Snapshot, deployment: Uuid, scratch: Uuid): Panel
    requires EnvFile in s.files
  {
    var q := p.(files := p.files[EnvFile := Correlated(s, deployment).files[EnvFile]]);
    q.(temps := p.temps - {RollbackTemp(StagedRelease("recovery", scratch, {Bridge}), EnvFile)},
       active := p.active + {Bridge}, started := p.started[Bridge := LaunchOf(q, Bridge)])
  }

  /** The environment file names the deployment, and no other, with every other line and its mode as
      captured; and the bridge runs under that very file. */
  ghost predicate Correlating(p: Panel, s: Snapshot, deployment: Uuid) {
    && EnvFile in s.files && EnvFile in p.files && p.files[EnvFile].mode == s.files[EnvFile].mode
    && Recorrelated(s.files[EnvFile].content, p.files[EnvFile].content, deployment)
    && Bridge in p.active && Bridge in p.started && p.started[Bridge].environment == Some(p.files[EnvFile])
  }

  lemma RestartRestoredRuns(p: Panel, s: Snapshot, deployment: Uuid, scratch: Uuid)
    requires EnvFile in s.files && Bridge in p.loaded && Bridge in p.active
    ensures Exec(RestartRestoredCommands(s, deployment, scratch), p) == Some(Restarted(p, s, deployment, scratch))
    ensures Correlating(Restarted(p, s, deployment, scratch), s, deployment)
  {
    CorrelateCarries(s.files[EnvFile].content, deployment);
    hide Recorrelated;
    var env := Some(Correlated(s, deployment).files[EnvFile]);
    var staged := StagedRelease("recovery", scratch, {Bridge});
    var q := p.(active := p.active - {Bridge});
    var r := FileRestored(q, EnvFile, env, staged);
    Exec1(Stop(Bridge), p);
    RestoreFileRuns(q, EnvFile, env, staged);
    Exec1(Start(Bridge), r);
    hide Exec, RestoreFile, Correlated;
    ExecConcat(RestoreFile(EnvFile, env, staged), [Start(Bridge)], q);
    ExecConcat([Stop(Bridge)], RestoreFile(EnvFile, env, staged) + [Start(Bridge)], p);
    assert r.active + {Bridge} == p.active + {Bridge};
  }

  /** Changing only the environment file's text changes nothing the layout is read from. */
  lemma RestartedIsPrior(p: Panel, s: Snapshot, deployment: Uuid, scratch: Uuid)
    requires Sound(s) && !s.layout.Absent? && IsPrior(p, s)
    ensures EnvFile in s.files
    ensures IsPriorUnder(Restarted(p, s, deployment, scratch), s, deployment)
    ensures Correlating(Restarted(p, s, deployment, scratch), s, deployment)
  {
    CorrelateCarries(s.files[EnvFile].content, deployment);
    var q := Restarted(p, s, deployment, scratch);
    assert Bridge in s.active && q.active == p.active;
    assert forall c: Component :: UnitChoice(q.files, q.trees, c) == UnitChoice(p.files, p.trees, c);
    assert LinkSelected(q.files, q.trees) == LinkSelected(p.files, p.trees);
    assert LegacyPaths(q.files, q.trees) == LegacyPaths(p.files, p.trees);
    assert q.files == Correlated(s, deployment).files;
  }

  lemma RestoredIsPrior(p: Panel, s: Snapshot, staged: StagedRelease)
    requires Sound(s)
    ensures IsPrior(RestoredPanel(p, s, s.baseline.value, staged), s)
    ensures !s.layout.Absent? ==> Bridge in RestoredPanel(p, s, s.baseline.value, staged).loaded
  {
  }

  function Cleaned(p: Panel, dir: Target): Panel { p.(uploads := p.uploads - {dir}, releases := p.releases - {dir}) }

  // ----- the operations -----

  /** What the two deletions do, and when the second is refused. */
  lemma DiscardRuns(p: Panel, dir: Target)
    ensures var q := p.(uploads := p.uploads - {dir});
            Apply(RemoveUpload(dir), p) == Some(q)
            && Apply(Prune(dir), q) == (if Prunable(p, dir) then Some(Cleaned(p, dir)) else None)
  {
  }

  /** Delete the candidate, which must be neither pinned nor selected. */
  method CleanupStaged(site: Site, panel: Fingerprint, staged: StagedRelease) returns (signal: Signal)
    requires site.Valid() && panel in site.w.panels
    requires Permitted(site.w, panel, RemoveUpload(staged.Dir())) && Permitted(site.w, panel, Prune(staged.Dir()))
    modifies site
    ensures site.Valid() && old(site.history) <= site.history && site.OnlyPanel(panel)
    ensures signal.Done? ==>
              site.w.panels[panel] == Cleaned(old(site.w).panels[panel], staged.Dir())
                && Gone(site.w.panels[panel], staged.Dir())
    ensures site.calm ==> (signal.Done? <==> Prunable(old(site.w).panels[panel], staged.Dir())) && !signal.Crashed?
  {
    hide Inv, Permitted, Apply, Prunable;
    DiscardRuns(site.w.panels[panel], staged.Dir());
    signal := site.Execute(panel, RemoveUpload(staged.Dir()));
    if !signal.Done? { return; }
    PermittedOnStores(old(site.w), site.w, panel, Prune(staged.Dir()));
    signal := site.Execute(panel, Prune(staged.Dir()));
  }

  /** Every owned file is in the upload, and its release directory is new. */
  predicate CanStage(p: Panel, staged: StagedRelease, files: map<Owned, Content>) {
    staged.Dir() !in p.releases && forall path :: path in OwnedFiles ==> path in files
  }

  function WithRelease(p: Panel, staged: StagedRelease, files: map<Owned, Content>): Panel {
    p.(releases := p.releases[staged.Dir() := Release(files, None)], uploads := p.uploads - {staged.Dir()})
  }

  lemma CheckedPromotes(r: Panel, dir: Target, files: map<Owned, Content>)
    requires dir in r.uploads && r.uploads[dir] == files && dir !in r.releases
    ensures Exec([CheckUpload(dir), Promote(dir)], r)
         == if (forall path :: path in OwnedFiles ==> path in files)
            then Some(r.(releases := r.releases[dir := Release(files, None)], uploads := r.uploads - {dir})) else None
  {
    hide Exec;
    assert [CheckUpload(dir), Promote(dir)] == [CheckUpload(dir)] + [Promote(dir)];
    ExecConcat([CheckUpload(dir)], [Promote(dir)], r);
    Exec1(CheckUpload(dir), r);
    Exec1(Promote(dir), r);
  }

  lemma UploadPromotes(q: Panel, dir: Target, files: map<Owned, Content>)
    requires dir !in q.uploads && dir !in q.releases
    ensures Exec([Upload(dir, files), CheckUpload(dir), Promote(dir)], q)
         == if (forall path :: path in OwnedFiles ==> path in files)
            then Some(q.(releases := q.releases[dir := Release(files, None)])) else None
  {
    hide Exec;
    var checked := [CheckUpload(dir), Promote(dir)];
    assert [Upload(dir, files), CheckUpload(dir), Promote(dir)] == [Upload(dir, files)] + checked;
    ExecConcat([Upload(dir, files)], checked, q);
    Exec1(Upload(dir, files), q);
    var r := q.(uploads := q.uploads[dir := files]);
    CheckedPromotes(r, dir, files);
    assert r.uploads - {dir} == q.uploads;
  }

  /** Staging succeeds exactly for a complete upload into a new directory. */
  lemma StageRuns(p: Panel, staged: StagedRelease, files: map<Owned, Content>)
    ensures Exec(StageCommands(staged, files), p) == if CanStage(p, staged, files)
            then Some(WithRelease(p, staged, files)) else None
  {
    hide Exec;
    var dir := staged.Dir();
    var uploaded := [Upload(dir, files), CheckUpload(dir), Promote(dir)];
    assert StageCommands(staged, files) == [PrepareUpload(dir)] + uploaded;
    ExecConcat([PrepareUpload(dir)], uploaded, p);
    Exec1(PrepareUpload(dir), p);
    if dir !in p.releases { UploadPromotes(p.(uploads := p.uploads - {dir}), dir, files); }
  }

  /** Upload and promote the candidate; whatever fails, its directories are removed again. */
  method StageRelease(site: Site, panel: Fingerprint, staged: StagedRelease, files: map<Owned, Content>)
      returns (signal: Signal)
    requires site.Valid() && panel in site.w.panels
    requires ActiveIn(site.w, panel, Phase.Staged) && site.w.active.value.Dir() == staged.Dir()
    modifies site
    ensures site.Valid() && old(site.history) <= site.history && site.OnlyPanel(panel)
    ensures signal.Done? ==> site.w.panels[panel] == WithRelease(old(site.w).panels[panel], staged, files)
    ensures site.calm ==> (signal.Done? <==> CanStage(old(site.w).panels[panel], staged, files)) && !signal.Crashed?
    ensures site.calm && !signal.Done? ==> Gone(site.w.panels[panel], staged.Dir())
  {
    hide Inv, Apply, StageCommands, Permitted, Exec, CanStage, WithRelease, Prunable, IsPrior;
    StagePermitted(site.w, panel, staged, files);
    StageRuns(site.w.panels[panel], staged, files);
    signal := site.ExecuteAll(panel, StageCommands(staged, files), None);
    if signal.Failed? {
      CleanupPermitted(site.w, panel, staged);
      StagedPrunable(site.w);
      var cleanup := CleanupStaged(site, panel, staged);
      if cleanup.Crashed? { signal := Crashed; }
    }
  }

  /** Select the release, once the admission still reads the same and the staged code is the admitted one
      (`readmitted`), and converge the services. */
  method ActivateStaged(site: Site, panel: Fingerprint, staged: StagedRelease, ordinal: nat, readmitted: bool)
      returns (signal: Signal)
    requires site.Valid() && panel in site.w.panels
    requires ActiveIn(site.w, panel, ActivationPending) && site.w.active.value.Dir() == staged.Dir()
    modifies site
    ensures site.Valid() && old(site.history) <= site.history && site.OnlyPanel(panel)
    ensures signal.Done? ==> readmitted && RunsCandidate(site.w.panels[panel], staged)
    ensures signal.Done? ==>
              && site.w.panels[panel].active == staged.selected
              && site.w.panels[panel].releases == old(site.w).panels[panel].releases
              && Identified(old(site.w).panels[panel], site.w.panels[panel], staged, ordinal)
    ensures !readmitted ==> site.w == old(site.w)
    ensures site.calm ==>
              (signal.Done? <==> readmitted && Complete(old(site.w).panels[panel], staged)) && !signal.Crashed?
  {
    hide Inv, Permitted, Exec, RunsCandidate, Apply, Identified;
    if !readmitted { return Failed; }
    var cmds := ActivateCommands(staged, ordinal);
    assert cmds[0] == CheckRelease(staged.Dir());
    hide ActivateCommands;
    ActivateGentle(staged, ordinal);
    ActivationCompletes(staged, ordinal, site.w.panels[panel]);
    GentlePermitted(site.w, panel, cmds, Some(staged.Dir()));
    signal := site.ExecuteAll(panel, cmds, Some(staged.Dir()));
    if signal.Done? {
      ActivationRuns(staged, ordinal, old(site.w).panels[panel], site.w.panels[panel]);
    }
  }

  /** Stop the bridge, provided the link is on the candidate. */
  method StopSelected(site: Site, panel: Fingerprint, staged: StagedRelease) returns (signal: Signal)
    requires site.Valid() && panel in site.w.panels
    requires ListPermitted(site.w, panel, StopCommands(staged), None)
    modifies site
    ensures site.Valid() && old(site.history) <= site.history && site.OnlyPanel(panel)
    ensures signal.Done? ==>
              && old(site.w).panels[panel].link == Some(staged.Dir())
              && site.w.panels[panel]
                 == old(site.w).panels[panel].(active := old(site.w).panels[panel].active - {Bridge})
              && |site.history| == |old(site.history)| + 2
    ensures site.calm ==> !signal.Crashed? && (old(site.w).panels[panel].link == Some(staged.Dir()) ==> signal.Done?)
  {
    hide Inv, Permitted, Exec, StopCommands;
    ListPermission(site.w, panel, StopCommands(staged), None);
    StopRuns(staged, site.w.panels[panel]);
    signal := site.ExecuteAll(panel, StopCommands(staged), None);
  }

  /** Start the bridge and see that it runs. */
  method StartBridge(site: Site, panel: Fingerprint) returns (signal: Signal)
    requires site.Valid() && panel in site.w.panels
    requires ListPermitted(site.w, panel, StartCommands, None)
    modifies site
    ensures site.Valid() && old(site.history) <= site.history && site.OnlyPanel(panel)
    ensures signal.Done? ==> Bridge in site.w.panels[panel].active
    ensures site.calm ==> !signal.Crashed? && (Bridge in old(site.w).panels[panel].loaded ==> signal.Done?)
  {
    hide Inv, Permitted, Exec;
    ListPermission(site.w, panel, StartCommands, None);
    StartRuns(site.w.panels[panel]);
    signal := site.ExecuteAll(panel, StartCommands, None);
  }

  function StopCommands(staged: StagedRelease): seq<Cmd> { [CheckLinkIs(staged.Dir()), Stop(Bridge)] }

  const StartCommands: seq<Cmd> := [Start(Bridge), CheckRunning(Bridge)]

  /** Stop the selected bridge and start it again; in between it was down. */
  method RestartCandidate(site: Site, panel: Fingerprint, staged: StagedRelease) returns (signal: Signal)
    requires site.Valid() && panel in site.w.panels
    requires ActiveIn(site.w, panel, Activated) || ActiveIn(site.w, panel, Verifying)
    requires site.w.active.value.Dir() == staged.Dir() && !site.w.active.value.operation.Update?
    modifies site
    ensures site.Valid() && old(site.history) <= site.history && site.OnlyPanel(panel)
    ensures signal.Done? ==>
              Bridge in site.w.panels[panel].active && old(site.w).panels[panel].link == Some(staged.Dir())
    ensures signal.Done? ==>
              |site.history| > |old(site.history)| + 1
              && var stopped := site.history[|old(site.history)| + 1];
                 panel in stopped.panels && Bridge !in stopped.panels[panel].active
    ensures site.calm ==> !signal.Crashed? && (RunsCandidate(old(site.w).panels[panel], staged) ==> signal.Done?)
  {
    hide Inv, RunsCandidate, Permitted, ListPermitted, StopCommands;
    RestartRuns(staged, site.w.panels[panel]);
    RestartPermitted(site.w, panel, staged);
    signal := StopSelected(site, panel, staged);
    if !signal.Done? { return; }
    RestartPermitted(site.w, panel, staged);
    signal := StartBridge(site, panel);
  }

  lemma RestartPermitted(w: World, panel: Fingerprint, staged: StagedRelease)
    requires ActiveIn(w, panel, Activated) || ActiveIn(w, panel, Verifying)
    requires w.active.value.Dir() == staged.Dir() && !w.active.value.operation.Update?
    ensures ListPermitted(w, panel, StopCommands(staged), None) && ListPermitted(w, panel, StartCommands, None)
  {
  }

  /** The activated candidate can always be stopped and started again. */
  lemma RestartRuns(staged: StagedRelease, p: Panel)
    ensures RunsCandidate(p, staged) ==> p.link == Some(staged.Dir()) && Bridge in p.loaded
  {
    if RunsCandidate(p, staged) { assert Installs(staged, Unit(Bridge)) && Unit(Bridge) in p.files; }
  }

  lemma StopRuns(staged: StagedRelease, p: Panel)
    ensures Exec(StopCommands(staged), p)
         == if p.link == Some(staged.Dir()) then Some(p.(active := p.active - {Bridge})) else None
    ensures |StopCommands(staged)| == 2
  {
    if p.link == Some(staged.Dir()) { Exec2(CheckLinkIs(staged.Dir()), Stop(Bridge), p, p); }
  }

  lemma StartRuns(p: Panel)
    ensures Exec(StartCommands, p) == if Bridge in p.loaded then Some(Started(p, Bridge)) else None
    ensures Bridge in Started(p, Bridge).active
  {
    if Bridge in p.loaded { Exec2(Start(Bridge), CheckRunning(Bridge), p, Started(p, Bridge)); }
  }

  /** Put everything of the snapshot back. */
  method RestoreEverything(site: Site, panel: Fingerprint, s: Snapshot, staged: StagedRelease) returns (signal: Signal)
    requires site.Valid() && panel in site.w.panels
    requires Restoring(site.w) && site.w.active.value.Panel() == panel && site.w.active.value.snapshot == s
    requires Sound(s) && Held(site.w.panels[panel], s)
    modifies site
    ensures site.Valid() && old(site.history) <= site.history && site.OnlyPanel(panel)
    ensures old(site.w).panels[panel].releases.Keys <= site.w.panels[panel].releases.Keys
    ensures signal.Done? ==>
              site.w.panels[panel] == RestoredDirty(old(site.w).panels[panel], s, s.baseline.value, staged)
    ensures site.calm ==> signal.Done?
  {
    hide Inv, Permitted, Exec, ListPermitted, RollbackBody, RestoredDirty, AllGentle, Held;
    var b := s.baseline.value;
    TargetHeld(site.w.panels[panel], s);
    RollbackBodyGentle(s, b, staged);
    BodyRuns(site.w.panels[panel], s, staged);
    GentlePermitted(site.w, panel, RollbackBody(s, b, staged), s.target);
    ListPermission(site.w, panel, RollbackBody(s, b, staged), s.target);
    signal := site.ExecuteAll(panel, RollbackBody(s, b, staged), s.target);
  }

  /** Remove every temporary of the transaction. */
  method RemoveTemporaries(site: Site, panel: Fingerprint, s: Snapshot, staged: StagedRelease) returns (signal: Signal)
    requires site.Valid() && panel in site.w.panels
    requires Restoring(site.w) && site.w.active.value.Panel() == panel && site.w.active.value.snapshot == s
    requires s.baseline.Some? && (s.target.Some? ==> s.target.value in site.w.panels[panel].releases)
    modifies site
    ensures site.Valid() && old(site.history) <= site.history && site.OnlyPanel(panel)
    ensures signal.Done? ==> site.w.panels[panel] == WithoutTemporaries(old(site.w).panels[panel], staged)
    ensures site.calm ==> signal.Done?
  {
    hide Inv, Permitted, Exec, ListPermitted, RollbackCleanup, AllGentle;
    CleanupRuns(site.w.panels[panel], staged);
    RollbackGentle(s, s.baseline.value, staged);
    GentlePermitted(site.w, panel, RollbackCleanup(staged), s.target);
    ListPermission(site.w, panel, RollbackCleanup(staged), s.target);
    signal := site.ExecuteAll(panel, RollbackCleanup(staged), s.target);
  }

  function WithoutTemporaries(p: Panel, staged: StagedRelease): Panel {
    p.(temps := p.temps - (RollbackTemps(staged) + ActivationTemps(staged)),
       linkTemps := p.linkTemps - {LinkTemp(Rollback, staged.transaction), LinkTemp(Activation, staged.transaction)})
  }

  /** Verify the baseline, restore everything, then remove the temporaries whatever happened. */
  method RollbackSnapshot(site: Site, panel: Fingerprint, s: Snapshot, staged: StagedRelease) returns (signal: Signal)
    requires site.Valid() && panel in site.w.panels
    requires Restoring(site.w) && site.w.active.value.Panel() == panel && site.w.active.value.snapshot == s
    requires Sound(s) && Held(site.w.panels[panel], s)
    modifies site
    ensures site.Valid() && old(site.history) <= site.history && site.OnlyPanel(panel)
    ensures signal.Done? ==>
              site.w.panels[panel] == RestoredPanel(old(site.w).panels[panel], s, s.baseline.value, staged)
    ensures signal.Done? ==> RestartedAll(site.w.panels[panel], s)
    ensures site.calm ==> signal.Done?
  {
    hide Inv, Permitted, RestoredPanel, RestoredDirty, Relaunched, LaunchOf, WithoutTemporaries;
    var b := s.baseline.value;
    var p := site.w.panels[panel];
    TargetHeld(p, s);
    VerifyPermitted(site.w, panel, b);
    VerifyRuns(p, b);
    signal := site.Execute(panel, VerifyBaseline(b));
    if !signal.Done? { return; }
    signal := RestoreEverything(site, panel, s, staged);
    if signal.Crashed? { return; }
    var cleanup := RemoveTemporaries(site, panel, s, staged);
    RestoredClean(p, s, staged);
    RestoredRestarts(p, s, staged);
    if !cleanup.Done? { signal := cleanup; }
  }

  /** Each service the snapshot had running was started again on the restored unit, environment, link and
      code. */
  predicate RestartedAll(p: Panel, s: Snapshot)
    requires s.baseline.Some?
  {
    forall c :: c in s.active ==>
      c in p.active && c in p.started && Unit(c) in s.files
      && p.started[c] == Launch(Some(s.files[Unit(c)]), if EnvFile in s.files then Some(s.files[EnvFile]) else None,
                                s.target, s.baseline.value.capture.trees.code)
  }

  lemma RestoredRestarts(p: Panel, s: Snapshot, staged: StagedRelease)
    requires Sound(s)
    ensures RestartedAll(RestoredPanel(p, s, s.baseline.value, staged), s)
  {
  }

  lemma TargetHeld(p: Panel, s: Snapshot)
    requires Sound(s) && Held(p, s)
    ensures s.target.Some? ==> s.target.value in p.releases
  {
  }

  lemma VerifyRuns(p: Panel, b: Baseline)
    ensures BaselineIntact(p, b) ==> Apply(VerifyBaseline(b), p) == Some(p)
    ensures Apply(VerifyBaseline(b), p).Some? ==> Apply(VerifyBaseline(b), p) == Some(p)
  {
  }

  lemma VerifyPermitted(w: World, panel: Fingerprint, b: Baseline)
    requires Restoring(w) && w.active.value.Panel() == panel
    ensures Permitted(w, panel, VerifyBaseline(b))
  {
  }

  lemma ListPermission(w: World, panel: Fingerprint, cmds: seq<Cmd>, link: Option<Target>)
    requires ListPermitted(w, panel, cmds, link)
    ensures forall cmd :: cmd in cmds ==>
              Permitted(w, panel, cmd) && !cmd.Prune? && (cmd.MoveLinkTemp? ==> link == Some(cmd.dir))
  {
  }

  lemma RestoredClean(p: Panel, s: Snapshot, staged: StagedRelease)
    requires s.baseline.Some?
    ensures WithoutTemporaries(RestoredDirty(p, s, s.baseline.value, staged), staged)
         == RestoredPanel(p, s, s.baseline.value, staged)
  {
    hide Relaunched;
    var q := RestoredDirty(p, s, s.baseline.value, staged);
    var r := RestoredPanel(p, s, s.baseline.value, staged);
    assert q.temps - (RollbackTemps(staged) + ActivationTemps(staged)) == r.temps;
    assert q.linkTemps - {LinkTemp(Rollback, staged.transaction),
           LinkTemp(Activation, staged.transaction)} == r.linkTemps;
  }

  /** Restart the restored bridge under a fresh deployment id, so that its health proves the restore. */
  method RestartRestored(site: Site, panel: Fingerprint, s: Snapshot, deployment: Uuid, scratch: Uuid)
      returns (signal: Signal)
    requires site.Valid() && panel in site.w.panels
    requires Restoring(site.w) && site.w.active.value.Panel() == panel && site.w.active.value.snapshot == s
    requires Sound(s) && !s.layout.Absent? && Held(site.w.panels[panel], s)
    requires IsPrior(site.w.panels[panel], s) && Bridge in site.w.panels[panel].loaded
    modifies site
    ensures site.Valid() && old(site.history) <= site.history && site.OnlyPanel(panel)
    ensures EnvFile in s.files
    ensures signal.Done? ==> site.w.panels[panel] == Restarted(old(site.w).panels[panel], s, deployment, scratch)
    ensures signal.Done? ==> IsPriorUnder(site.w.panels[panel], s, deployment)
    ensures signal.Done? ==> Correlating(site.w.panels[panel], s, deployment)
    ensures site.calm ==> signal.Done?
  {
    hide Inv, Permitted, Exec, RestartRestoredCommands, ListPermitted, Restarted, IsPriorUnder, Correlating;
    var p := site.w.panels[panel];
    TargetHeld(p, s);
    RestartedIsPrior(p, s, deployment, scratch);
    RestartRestoredGentle(s, deployment, scratch);
    RestartRestoredRuns(p, s, deployment, scratch);
    var cmds := RestartRestoredCommands(s, deployment, scratch);
    GentlePermitted(site.w, panel, cmds, s.target);
    ListPermission(site.w, panel, cmds, s.target);
    signal := site.ExecuteAll(panel, cmds, s.target);
  }
}
