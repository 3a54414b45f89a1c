/**
 * Rollback absorbs whatever happened before it: from any panel that still holds the captured
 * baseline, one complete rollback_snapshot succeeds and leaves exactly the snapshot.
 */
module Rollback {
  import opened Common
  import opened PanelState
  import opened PanelCommands

  // ----- running a command list per service, per file -----

  lemma ServicesRun(f: Component -> seq<Cmd>, p: Panel, q1: Panel, q2: Panel, q3: Panel)
    requires Exec(f(Bridge), p) == Some(q1)
    requires Exec(f(Wifi), q1) == Some(q2)
    requires Exec(f(Bus), q2) == Some(q3)
    ensures Exec(Each(f, Services), p) == Some(q3)
  {
    assert Services[1..] == [Wifi, Bus] && [Wifi, Bus][1..] == [Bus] && [Bus][1..] == [];
    assert Each(f, []) == [];
    assert Each(f, [Bus]) == f(Bus) + [];
    assert Each(f, [Wifi, Bus]) == f(Wifi) + Each(f, [Bus]);
    ExecConcat(f(Bridge), Each(f, [Wifi, Bus]), p);
    ExecConcat(f(Wifi), Each(f, [Bus]), q1);
    ExecConcat(f(Bus), [], q2);
  }

  lemma Exec1(c: Cmd, p: Panel)
    ensures Exec([c], p) == Apply(c, p)
  {
    assert [c][1..] == [];
  }

  lemma Exec2(c: Cmd, d: Cmd, p: Panel, q: Panel)
    requires Apply(c, p) == Some(q)
    ensures Exec([c, d], p) == Apply(d, q)
  {
    assert [c, d][1..] == [d];
    Exec1(d, q);
  }

  lemma Exec3(c: Cmd, d: Cmd, e: Cmd, p: Panel, q: Panel, r: Panel)
    requires Apply(c, p) == Some(q)
    requires Apply(d, q) == Some(r)
    ensures Exec([c, d, e], p) == Apply(e, r)
  {
    assert [c, d, e][1..] == [d, e];
    Exec2(d, e, q, r);
  }

  lemma StopsAll(p: Panel)
    ensures Exec(Each(StopEach(), Services), p) == Some(p.(active := {}))
  {
    var q1 := p.(active := p.active - {Bridge});
    var q2 := q1.(active := q1.active - {Wifi});
    var q3 := q2.(active := q2.active - {Bus});
    Exec1(Stop(Bridge), p);
    Exec1(Stop(Wifi), q1);
    Exec1(Stop(Bus), q2);
    ServicesRun(StopEach(), p, q1, q2, q3);
    assert q3.active == {} by {
      forall c: Component ensures c !in q3.active { match c case Bridge => case Wifi => case Bus => }
    }
  }

  // ----- the snapshot and its baseline -----

  /** What taking the snapshot and completing its capture established together. */
  ghost predicate Sound(s: Snapshot) {
    && s.baseline.Some?
    && ValidSnapshot(s)
    && Correlatable(s)
    && s.baseline.value.capture.target == s.target
    && ProbeLayout(s.target, s.files, s.baseline.value.capture.trees) == s.layout
  }

  /** The panel still holds the capture this snapshot refers to. */
  ghost predicate Held(p: Panel, s: Snapshot) {
    s.baseline.Some? && BaselineIntact(p, s.baseline.value)
  }

  /** A completed capture makes the snapshot sound and held. */
  lemma CaptureIsSound(p: Panel, id: Uuid, s: Snapshot, q: Panel)
    requires Apply(CaptureBaseline(id, s), p) == Some(q)
    requires ValidSnapshot(s)
    ensures s.baseline.None?
    ensures var t := s.(baseline := Some(Baseline(id, q.baselines[id]))); Sound(t) && Held(q, t)
    ensures q == p.(baselines := q.baselines, releases := q.releases)
  {
  }

  // ----- rollback, phase by phase -----

  function Quiesced(p: Panel, s: Snapshot, b: Baseline): Panel {
    p.(active := {}, trees := b.capture.trees, enabled := p.enabled * s.enabled)
  }

  function DisabledUnless(p: Panel, s: Snapshot, c: Component): Panel {
    p.(enabled := if c in s.enabled then p.enabled else p.enabled - {c})
  }

  lemma DisableRestoredRuns(p: Panel, s: Snapshot, c: Component)
    ensures Exec(DisableRestored(s)(c), p) == Some(DisabledUnless(p, s, c))
  {
    Exec1(Disable(c), p);
  }

  lemma QuiesceRuns(p: Panel, s: Snapshot, b: Baseline)
    requires BaselineIntact(p, b)
    ensures Exec(QuiesceForRollback(s, b), p) == Some(Quiesced(p, s, b))
  {
    hide Exec;
    StopsAll(p);
    var q := p.(active := {});
    var r := q.(trees := b.capture.trees);
    var r1 := DisabledUnless(r, s, Bridge);
    var r2 := DisabledUnless(r1, s, Wifi);
    var r3 := DisabledUnless(r2, s, Bus);
    DisableRestoredRuns(r, s, Bridge);
    DisableRestoredRuns(r1, s, Wifi);
    DisableRestoredRuns(r2, s, Bus);
    ServicesRun(DisableRestored(s), r, r1, r2, r3);
    assert r3.enabled == p.enabled * s.enabled by {
      forall c: Component
        ensures c in r3.enabled <==> c in p.enabled * s.enabled
      {
        match c case Bridge => case Wifi => case Bus =>
      }
    }
    Exec1(RestoreBaseline(b), q);
    ExecConcat([RestoreBaseline(b)], Each(DisableRestored(s), Services), q);
    ExecConcat(Each(StopEach(), Services), [RestoreBaseline(b)] + Each(DisableRestored(s), Services), p);
  }

  /** One file put back, its temporary gone. */
  function FileRestored(p: Panel, path: Owned, file: Option<File>, staged: StagedRelease): Panel {
    p.(files := if file.Some? then p.files[path := file.value] else p.files - {path},
       temps := p.temps - {RollbackTemp(staged, path)})
  }

  lemma RestoreFileRuns(p: Panel, path: Owned, file: Option<File>, staged: StagedRelease)
    ensures Exec(RestoreFile(path, file, staged), p) == Some(FileRestored(p, path, file, staged))
  {
    var temp := RollbackTemp(staged, path);
    var q := p.(temps := p.temps - {temp});
    if file.None? {
      Exec2(RemoveTemps({temp}), RemoveFile(path), p, q);
    } else {
      var r := q.(temps := q.temps[temp := file.value]);
      Exec3(RemoveTemps({temp}), PutTemp(temp, file.value), MoveCheckedTemp(temp, file.value.mode), p, q, r);
      assert r.temps - {temp} == p.temps - {temp};
    }
  }

  function At(s: Snapshot, path: Owned): Option<File> {
    if path in s.files then Some(s.files[path]) else None
  }

  function AllRestored(p: Panel, s: Snapshot, staged: StagedRelease, paths: seq<Owned>): Panel
    decreases |paths|
  {
    if paths == [] then p
    else AllRestored(FileRestored(p, paths[0], At(s, paths[0]), staged), s, staged, paths[1..])
  }

  lemma {:induction false} AllRestoredRuns(p: Panel, s: Snapshot, staged: StagedRelease, paths: seq<Owned>)
    ensures Exec(Each(RestoreEach(s, staged), paths), p) == Some(AllRestored(p, s, staged, paths))
    decreases |paths|
  {
    if paths != [] {
      hide Apply, FileRestored, RestoreFile;
      var q := FileRestored(p, paths[0], At(s, paths[0]), staged);
      RestoreFileRuns(p, paths[0], At(s, paths[0]), staged);
      assert RestoreEach(s, staged)(paths[0]) == RestoreFile(paths[0], At(s, paths[0]), staged);
      AllRestoredRuns(q, s, staged, paths[1..]);
      ExecConcat(RestoreFile(paths[0], At(s, paths[0]), staged), Each(RestoreEach(s, staged), paths[1..]), p);
    }
  }

  lemma {:induction false} AllRestoredIs(p: Panel, s: Snapshot, staged: StagedRelease, paths: seq<Owned>)
    ensures var q := AllRestored(p, s, staged, paths);
            && q == p.(files := q.files, temps := q.temps)
            && (forall path: Owned :: path !in paths ==>
                  (path in q.files <==> path in p.files) && (path in p.files ==> q.files[path] == p.files[path]))
            && (forall path: Owned :: path in paths ==>
                  (path in q.files <==> path in s.files) && (path in s.files ==> q.files[path] == s.files[path]))
            && q.temps == p.temps - (set path | path in paths :: RollbackTemp(staged, path))
    decreases |paths|
  {
    if paths != [] {
      AllRestoredIs(FileRestored(p, paths[0], At(s, paths[0]), staged), s, staged, paths[1..]);
    }
  }

  lemma RestoreEachRuns(p: Panel, s: Snapshot, staged: StagedRelease)
    ensures Exec(Each(RestoreEach(s, staged), OwnedFiles), p)
         == Some(p.(files := s.files, temps := p.temps - RollbackTemps(staged)))
  {
    hide Exec, AllRestored;
    AllRestoredRuns(p, s, staged, OwnedFiles);
    AllRestoredIs(p, s, staged, OwnedFiles);
    AllOwned(AllRestored(p, s, staged, OwnedFiles).files, s.files);
  }

  lemma AllOwned(a: map<Owned, File>, b: map<Owned, File>)
    requires forall path :: path in OwnedFiles ==> (path in a <==> path in b) && (path in a ==> a[path] == b[path])
    ensures a == b
  {
    forall path: Owned ensures path in OwnedFiles { EveryOwned(path); }
  }

  lemma SwitchLinkRuns(p: Panel, staged: StagedRelease, kind: TempKind, dir: Target)
    ensures Exec(SwitchLink(staged, kind, dir), p)
         == Some(p.(link := Some(dir), linkTemps := p.linkTemps - {LinkTemp(kind, staged.transaction)}))
  {
    var temp := LinkTemp(kind, staged.transaction);
    var q := p.(linkTemps := p.linkTemps - {temp});
    var r := q.(linkTemps := q.linkTemps[temp := dir]);
    Exec3(RemoveLinkTemps({temp}), PutLinkTemp(temp, dir), MoveLinkTemp(temp, dir), p, q, r);
    assert r.linkTemps - {temp} == p.linkTemps - {temp};
  }

  lemma RestoreFilesAndLinkRuns(p: Panel, s: Snapshot, staged: StagedRelease)
    requires ValidSnapshot(s)
    ensures Exec(RestoreFilesAndLink(s, staged), p)
         == Some(p.(files := s.files, temps := p.temps - RollbackTemps(staged), link := s.target,
                    linkTemps := p.linkTemps - {LinkTemp(Rollback, staged.transaction)}))
  {
    RestoreEachRuns(p, s, staged);
    var q := p.(files := s.files, temps := p.temps - RollbackTemps(staged));
    ExecConcat(Each(RestoreEach(s, staged), OwnedFiles), RestoreLink(s, staged), p);
    if s.layout.ReleaseLink? {
      SwitchLinkRuns(q, staged, Rollback, s.target.value);
    } else {
      Exec1(RemoveLink({LinkTemp(Rollback, staged.transaction)}), q);
    }
  }

  function ServiceRestored(p: Panel, s: Snapshot, c: Component): Panel {
    p.(enabled := if c in s.enabled then p.enabled + {c} else p.enabled,
       active := if c in s.active then p.active + {c} else p.active - {c},
       started := if c in s.active && c !in p.active then p.started[c := LaunchOf(p, c)] else p.started)
  }

  /** These services were started with what the panel holds. */
  function Relaunched(p: Panel, services: set<Component>): map<Component, Launch> {
    p.started + map c | c in services :: LaunchOf(p, c)
  }

  lemma RestoreServiceRuns(p: Panel, s: Snapshot, c: Component)
    requires ValidSnapshot(s) && p.files == s.files && p.loaded == Units(s.files)
    requires c in p.enabled ==> c in s.enabled
    ensures Exec(RestoreService(s)(c), p) == Some(ServiceRestored(p, s, c))
  {
    var q := p.(enabled := if c in s.enabled then p.enabled + {c} else p.enabled);
    assert c in p.active ==> p.active + {c} == p.active;
    assert LaunchOf(q, c) == LaunchOf(p, c);
    Exec2(if c in s.enabled then Enable(c) else CheckDisabled(c), if c in s.active then Start(c) else Stop(c), p, q);
  }

  predicate SameStart(p: Panel, q: Panel, c: Component) {
    (c in q.started <==> c in p.started) && (c in p.started ==> q.started[c] == p.started[c])
  }

  predicate RestoredAt(p: Panel, q: Panel, s: Snapshot, c: Component, done: bool) {
    if done then
      && (c in q.enabled <==> c in p.enabled || c in s.enabled) && (c in q.active <==> c in s.active)
      && (if c in s.active then c in q.started && q.started[c] == LaunchOf(p, c) else SameStart(p, q, c))
    else (c in q.enabled <==> c in p.enabled) && c !in q.active && SameStart(p, q, c)
  }

  /** `q` is `p` with the services in `done` restored. */
  predicate RestoredFor(p: Panel, q: Panel, s: Snapshot, done: set<Component>) {
    && q == p.(enabled := q.enabled, active := q.active, started := q.started)
    && (forall c: Component :: c in done ==> RestoredAt(p, q, s, c, true))
    && (forall c: Component :: c !in done ==> RestoredAt(p, q, s, c, false))
  }

  lemma RestoresIt(p: Panel, q: Panel, s: Snapshot, c: Component)
    requires LaunchOf(q, c) == LaunchOf(p, c) && RestoredAt(p, q, s, c, false)
    ensures RestoredAt(p, ServiceRestored(q, s, c), s, c, true)
  {
    hide LaunchOf;
  }

  lemma SameLaunch(p: Panel, q: Panel, c: Component)
    requires q.loaded == p.loaded && q.files == p.files && q.link == p.link && q.trees == p.trees
    ensures LaunchOf(q, c) == LaunchOf(p, c)
  {
  }

  lemma RestoresNoOther(p: Panel, q: Panel, s: Snapshot, c: Component, d: Component, done: bool)
    requires RestoredAt(p, q, s, d, done) && c != d
    ensures RestoredAt(p, ServiceRestored(q, s, c), s, d, done)
  {
    hide LaunchOf;
  }

  lemma StartLaunches(p: Panel, c: Component)
    ensures var q := Started(p, c);
            q == p.(active := p.active + {c}, started := q.started) && (Launched(p) ==> Launched(q))
  {
    hide LaunchOf;
    assert c in p.active ==> p.active + {c} == p.active;
    forall d: Component ensures LaunchOf(Started(p, c), d) == LaunchOf(p, d) { SameLaunch(p, Started(p, c), d); }
  }

  lemma FewerLaunched(p: Panel, q: Panel)
    requires q == p.(enabled := q.enabled, active := q.active) && q.active <= p.active && Launched(p)
    ensures Launched(q)
  {
    hide LaunchOf;
    forall d: Component ensures LaunchOf(q, d) == LaunchOf(p, d) { SameLaunch(p, q, d); }
  }

  lemma OneRestored(p: Panel, q: Panel, s: Snapshot, done: set<Component>, c: Component)
    requires RestoredFor(p, q, s, done) && c !in done
    ensures RestoredFor(p, ServiceRestored(q, s, c), s, done + {c})
  {
    hide RestoredAt, LaunchOf;
    SameLaunch(p, q, c);
    RestoresIt(p, q, s, c);
    forall d: Component | d in done + {c} ensures RestoredAt(p, ServiceRestored(q, s, c), s, d, true) {
      if d != c { RestoresNoOther(p, q, s, c, d, true); }
    }
    forall d: Component | d !in done + {c} ensures RestoredAt(p, ServiceRestored(q, s, c), s, d, false) {
      RestoresNoOther(p, q, s, c, d, false);
    }
  }

  lemma RestoredForAll(p: Panel, q: Panel, s: Snapshot)
    requires RestoredFor(p, q, s, {Bridge, Wifi, Bus}) && p.enabled <= s.enabled
    ensures q == p.(enabled := s.enabled, active := s.active, started := Relaunched(p, s.active))
  {
    hide LaunchOf;
    forall c: Component
      ensures (c in q.enabled <==> c in s.enabled) && (c in q.active <==> c in s.active)
      ensures if c in s.active then c in q.started && q.started[c] == LaunchOf(p, c) else SameStart(p, q, c)
    {
      assert RestoredAt(p, q, s, c, true) by { assert c in {Bridge, Wifi, Bus} by { IsService(c); } }
      assert c in p.enabled ==> c in s.enabled;
    }
    assert q.enabled == s.enabled && q.active == s.active && q.started == Relaunched(p, s.active);
  }

  lemma IsService(c: Component)
    ensures c in {Bridge, Wifi, Bus}
  {
    match c case Bridge => case Wifi => case Bus =>
  }

  lemma AllServicesRestored(p: Panel, s: Snapshot)
    requires ValidSnapshot(s) && p.files == s.files && p.loaded == Units(s.files)
    requires p.enabled <= s.enabled && p.active == {}
    ensures Exec(Each(RestoreService(s), Services), p)
         == Some(p.(enabled := s.enabled, active := s.active, started := Relaunched(p, s.active)))
  {
    hide Exec, RestoreService, LaunchOf, Relaunched, ServiceRestored, Units, ValidSnapshot, Each;
    var q1 := ServiceRestored(p, s, Bridge);
    var q2 := ServiceRestored(q1, s, Wifi);
    var q3 := ServiceRestored(q2, s, Bus);
    OneRestored(p, p, s, {}, Bridge);
    OneRestored(p, q1, s, {} + {Bridge}, Wifi);
    OneRestored(p, q2, s, {} + {Bridge} + {Wifi}, Bus);
    assert {} + {Bridge} + {Wifi} + {Bus} == {Bridge, Wifi, Bus};
    RestoredForAll(p, q3, s);
    RestoreServiceRuns(p, s, Bridge);
    RestoreServiceRuns(q1, s, Wifi);
    RestoreServiceRuns(q2, s, Bus);
    ServicesRun(RestoreService(s), p, q1, q2, q3);
  }

  /** The restored panel passes the last check of a rollback. */
  lemma SnapshotChecks(p: Panel, s: Snapshot)
    requires Sound(s) && p.files == s.files && p.link == s.target && p.trees == s.baseline.value.capture.trees
    requires p.enabled == s.enabled && p.active == s.active
    ensures Apply(CheckSnapshot(s), p) == Some(p)
  {
  }

  lemma RestoreServicesRuns(p: Panel, s: Snapshot)
    requires Sound(s)
    requires p.files == s.files && p.link == s.target && p.trees == s.baseline.value.capture.trees
    requires p.enabled <= s.enabled && p.active == {}
    ensures var q := p.(loaded := Units(s.files));
            Exec(RestoreServices(s), p)
            == Some(q.(enabled := s.enabled, active := s.active, started := Relaunched(q, s.active)))
  {
    hide Exec, Each, RestoreService, LaunchOf, Relaunched, ServiceRestored, ValidSnapshot, Probe;
    var q := p.(loaded := Units(s.files));
    var q3 := q.(enabled := s.enabled, active := s.active, started := Relaunched(q, s.active));
    SoundIsValid(s);
    AllServicesRestored(q, s);
    SnapshotChecks(q3, s);
    Exec1(CheckSnapshot(s), q3);
    ExecConcat(Each(RestoreService(s), Services), [CheckSnapshot(s)], q);
    Exec1(DaemonReload, p);
    ExecConcat([DaemonReload], Each(RestoreService(s), Services) + [CheckSnapshot(s)], p);
  }

  /** The panel one complete rollback leaves, exactly: its services started anew on what was restored. */
  function RestoredPanel(p: Panel, s: Snapshot, b: Baseline, staged: StagedRelease): Panel {
    var q := p.(files := s.files, link := s.target, loaded := Units(s.files), trees := b.capture.trees);
    q.(enabled := s.enabled, active := s.active, started := Relaunched(q, s.active),
       temps := p.temps - (RollbackTemps(staged) + ActivationTemps(staged)),
       linkTemps := p.linkTemps - {LinkTemp(Rollback, staged.transaction), LinkTemp(Activation, staged.transaction)})
  }

  /** The same, before the final removal of temporaries. */
  function RestoredDirty(p: Panel, s: Snapshot, b: Baseline, staged: StagedRelease): Panel {
    RestoredPanel(p, s, b, staged).(temps := p.temps - RollbackTemps(staged),
                               linkTemps := p.linkTemps - {LinkTemp(Rollback, staged.transaction)})
  }

  lemma SameRelaunch(p: Panel, q: Panel, services: set<Component>)
    requires q.loaded == p.loaded && q.files == p.files && q.link == p.link && q.trees == p.trees
             && q.started == p.started
    ensures Relaunched(q, services) == Relaunched(p, services)
  {
    assert forall c :: LaunchOf(q, c) == LaunchOf(p, c);
  }

  lemma SoundIsValid(s: Snapshot)
    requires Sound(s)
    ensures ValidSnapshot(s)
  {
  }

  lemma BodyRuns(p: Panel, s: Snapshot, staged: StagedRelease)
    requires Sound(s) && Held(p, s)
    ensures Exec(RollbackBody(s, s.baseline.value, staged), p) == Some(RestoredDirty(p, s, s.baseline.value, staged))
  {
    hide Exec, QuiesceForRollback, RestoreFilesAndLink, RestoreServices, ValidSnapshot, LaunchOf, Relaunched, Units;
    var b := s.baseline.value;
    QuiesceRuns(p, s, b);
    SoundIsValid(s);
    var q := Quiesced(p, s, b);
    RestoreFilesAndLinkRuns(q, s, staged);
    var r := q.(files := s.files, temps := p.temps - RollbackTemps(staged), link := s.target,
                linkTemps := p.linkTemps - {LinkTemp(Rollback, staged.transaction)});
    RestoreServicesRuns(r, s);
    SameRelaunch(r.(loaded := Units(s.files)),
                 p.(files := s.files, link := s.target, loaded := Units(s.files), trees := b.capture.trees), s.active);
    ExecConcat(RestoreFilesAndLink(s, staged), RestoreServices(s), q);
    ExecConcat(QuiesceForRollback(s, b), RestoreFilesAndLink(s, staged) + RestoreServices(s), p);
  }

  lemma CleanupRuns(p: Panel, staged: StagedRelease)
    ensures Exec(RollbackCleanup(staged), p)
         == Some(p.(temps := p.temps - (RollbackTemps(staged) + ActivationTemps(staged)),
                    linkTemps := p.linkTemps - {LinkTemp(Rollback, staged.transaction),
                      LinkTemp(Activation, staged.transaction)}))
  {
    var temps := RollbackTemps(staged) + ActivationTemps(staged);
    Exec2(RemoveTemps(temps),
          RemoveLinkTemps({LinkTemp(Rollback, staged.transaction), LinkTemp(Activation, staged.transaction)}),
          p, p.(temps := p.temps - temps));
  }

  /** From any panel that holds the baseline, a complete rollback succeeds and its result is exact. */
  lemma RollbackRuns(p: Panel, s: Snapshot, staged: StagedRelease)
    requires Sound(s) && Held(p, s)
    ensures Exec(RollbackCommands(s, s.baseline.value, staged),
            p) == Some(RestoredPanel(p, s, s.baseline.value, staged))
    ensures Probe(RestoredPanel(p, s, s.baseline.value, staged)) == s.(baseline := None)
  {
    hide Exec, RollbackBody, RollbackCleanup;
    var b := s.baseline.value;
    BodyRuns(p, s, staged);
    var q := RestoredDirty(p, s, b, staged);
    CleanupRuns(q, staged);
    ExecConcat(RollbackBody(s, b, staged), RollbackCleanup(staged), p);
    Exec1(VerifyBaseline(b), p);
    ExecConcat([VerifyBaseline(b)], RollbackBody(s, b, staged) + RollbackCleanup(staged), p);
    var r := RestoredPanel(p, s, b, staged);
    assert q.temps - (RollbackTemps(staged) + ActivationTemps(staged)) == r.temps;
    assert q.linkTemps - {LinkTemp(Rollback, staged.transaction),
           LinkTemp(Activation, staged.transaction)} == r.linkTemps;
  }

  // ----- what every step keeps -----

  /** The selected release exists, and every capture's release exists and carries its own pin. */
  ghost predicate PanelWf(p: Panel) {
    && (p.link.Some? ==> p.link.value in p.releases)
    && (forall id :: id in p.baselines && p.baselines[id].target.Some? ==>
          p.baselines[id].target.value in p.releases
          && p.releases[p.baselines[id].target.value].pinned == Some(id))
  }

  /** A step of a deployment or of a rollback: it neither stores nor deletes a release or a capture,
      and links only `dir`. */
  predicate Gentle(cmd: Cmd, dir: Option<Target>) {
    && !cmd.FinalizeBaseline? && !cmd.CaptureBaseline?
    && !cmd.Prune? && !cmd.Promote? && !cmd.Upload?
    && (cmd.MoveLinkTemp? ==> dir == Some(cmd.dir))
  }

  predicate AllGentle(cmds: seq<Cmd>, dir: Option<Target>) {
    forall cmd :: cmd in cmds ==> Gentle(cmd, dir)
  }

  /** Nothing a later rollback needs was lost between p and q. */
  ghost predicate Keeps(p: Panel, q: Panel) {
    && (PanelWf(p) ==> PanelWf(q))
    && (forall dir :: dir in p.releases ==> dir in q.releases)
    && (forall id :: id in p.baselines ==> id in q.baselines && q.baselines[id] == p.baselines[id])
    && (forall s :: Held(p, s) ==> Held(q, s))
  }

  lemma SameStoresKeep(p: Panel, q: Panel)
    requires q.releases == p.releases && q.baselines == p.baselines
    requires q.link.Some? ==> q.link == p.link || q.link.value in p.releases
    ensures Keeps(p, q)
  {
  }

  lemma PromoteKeeps(p: Panel, dir: Target)
    requires Apply(Promote(dir), p).Some?
    ensures Keeps(p, Apply(Promote(dir), p).value)
  {
  }

  lemma CaptureKeeps(p: Panel, id: Uuid, s: Snapshot)
    requires Apply(CaptureBaseline(id, s), p).Some?
    ensures Keeps(p, Apply(CaptureBaseline(id, s), p).value)
  {
    var q := Apply(CaptureBaseline(id, s), p).value;
    forall t | Held(p, t) ensures Held(q, t) {}
  }

  lemma ApplyKeeps(cmd: Cmd, dir: Option<Target>, p: Panel)
    requires Gentle(cmd, dir) && (dir.Some? ==> dir.value in p.releases)
    ensures Apply(cmd, p).Some? ==> Keeps(p, Apply(cmd, p).value)
  {
    hide Keeps, Probe, Units, BaselineIntact, ValidSnapshot, Correlatable, Prunable;
    if Apply(cmd, p).Some? { SameStoresKeep(p, Apply(cmd, p).value); }
  }

  lemma {:induction false} PrefixKeeps(cmds: seq<Cmd>, k: nat, dir: Option<Target>, p: Panel)
    requires AllGentle(cmds, dir) && (dir.Some? ==> dir.value in p.releases)
    ensures Keeps(p, ExecPrefix(cmds, k, p))
  {
    if cmds != [] && k != 0 && Apply(cmds[0], p).Some? {
      ApplyKeeps(cmds[0], dir, p);
      PrefixKeeps(cmds[1..], k - 1, dir, Apply(cmds[0], p).value);
    }
  }

  lemma {:induction false} EachGentle<T>(f: T -> seq<Cmd>, items: seq<T>, dir: Option<Target>)
    requires forall x :: x in items ==> AllGentle(f(x), dir)
    ensures AllGentle(Each(f, items), dir)
  {
    if items != [] { EachGentle(f, items[1..], dir); }
  }

  lemma GentleConcat(a: seq<Cmd>, b: seq<Cmd>, dir: Option<Target>)
    requires AllGentle(a, dir) && AllGentle(b, dir)
    ensures AllGentle(a + b, dir)
  {
  }

  lemma SwitchLinkGentle(staged: StagedRelease, kind: TempKind, dir: Target)
    ensures AllGentle(SwitchLink(staged, kind, dir), Some(dir))
  {
  }

  lemma GentleList(cmds: seq<Cmd>, dir: Option<Target>)
    requires |cmds| <= 3
    requires |cmds| > 0 ==> Gentle(cmds[0], dir)
    requires |cmds| > 1 ==> Gentle(cmds[1], dir)
    requires |cmds| > 2 ==> Gentle(cmds[2], dir)
    ensures AllGentle(cmds, dir)
  {
  }

  lemma ActivationHeadGentle(staged: StagedRelease)
    ensures AllGentle(PrepareActivation(staged), Some(staged.Dir()))
    ensures AllGentle(QuiesceForActivation(staged), Some(staged.Dir()))
  {
    var dir := Some(staged.Dir());
    EachGentle(Copy(staged), OwnedFiles, dir);
    EachGentle(Chmod(staged), OwnedFiles, dir);
    EachGentle(StopEach(), Services, dir);
    EachGentle(DisableUnselected(staged), Services, dir);
    var first := [CheckRelease(staged.Dir()), RemoveTemps(ActivationTemps(staged))];
    GentleList(first, dir);
    hide AllGentle, Each;
    GentleConcat(Each(Copy(staged), OwnedFiles), Each(Chmod(staged), OwnedFiles), dir);
    GentleConcat(first, Each(Copy(staged), OwnedFiles) + Each(Chmod(staged), OwnedFiles), dir);
    GentleConcat(Each(StopEach(), Services), Each(DisableUnselected(staged), Services), dir);
  }

  lemma ActivationTailGentle(staged: StagedRelease, ordinal: nat)
    ensures AllGentle(CommitActivation(staged, ordinal), Some(staged.Dir()))
    ensures AllGentle(ConvergeActivation(staged), Some(staged.Dir()))
  {
    var dir := Some(staged.Dir());
    EachGentle(Select(staged), OwnedFiles, dir);
    EachGentle(Identify(staged, ordinal), Services, dir);
    EachGentle(Converge(staged), Services, dir);
    SwitchLinkGentle(staged, Activation, staged.Dir());
    GentleList([DaemonReload], dir);
    hide AllGentle, Each, SwitchLink;
    GentleConcat(SwitchLink(staged, Activation, staged.Dir()), Each(Identify(staged, ordinal), Services), dir);
    GentleConcat(Each(Select(staged), OwnedFiles),
                 SwitchLink(staged, Activation, staged.Dir()) + Each(Identify(staged, ordinal), Services), dir);
    GentleConcat([DaemonReload], Each(Converge(staged), Services), dir);
  }

  lemma ActivateGentle(staged: StagedRelease, ordinal: nat)
    ensures AllGentle(ActivateCommands(staged, ordinal), Some(staged.Dir()))
  {
    var dir := Some(staged.Dir());
    ActivationHeadGentle(staged);
    ActivationTailGentle(staged, ordinal);
    hide AllGentle, PrepareActivation, QuiesceForActivation, CommitActivation, ConvergeActivation;
    GentleConcat(CommitActivation(staged, ordinal), ConvergeActivation(staged), dir);
    GentleConcat(QuiesceForActivation(staged), CommitActivation(staged, ordinal) + ConvergeActivation(staged), dir);
    GentleConcat(PrepareActivation(staged),
                 QuiesceForActivation(staged) + (CommitActivation(staged, ordinal) + ConvergeActivation(staged)), dir);
  }

  lemma QuiesceGentle(s: Snapshot, b: Baseline)
    ensures AllGentle(QuiesceForRollback(s, b), s.target)
  {
    EachGentle(StopEach(), Services, s.target);
    EachGentle(DisableRestored(s), Services, s.target);
    GentleList([RestoreBaseline(b)], s.target);
    hide AllGentle, Each;
    GentleConcat([RestoreBaseline(b)], Each(DisableRestored(s), Services), s.target);
    GentleConcat(Each(StopEach(), Services), [RestoreBaseline(b)] + Each(DisableRestored(s), Services), s.target);
  }

  lemma RestoreFilesGentle(s: Snapshot, staged: StagedRelease)
    ensures AllGentle(RestoreFilesAndLink(s, staged), s.target)
  {
    EachGentle(RestoreEach(s, staged), OwnedFiles, s.target);
    assert AllGentle(RestoreLink(s, staged), s.target);
    hide AllGentle, Each, RestoreLink;
    GentleConcat(Each(RestoreEach(s, staged), OwnedFiles), RestoreLink(s, staged), s.target);
  }

  lemma RestoreServicesGentle(s: Snapshot)
    ensures AllGentle(RestoreServices(s), s.target)
  {
    EachGentle(RestoreService(s), Services, s.target);
    GentleList([DaemonReload], s.target);
    GentleList([CheckSnapshot(s)], s.target);
    hide AllGentle, Each;
    GentleConcat(Each(RestoreService(s), Services), [CheckSnapshot(s)], s.target);
    GentleConcat([DaemonReload], Each(RestoreService(s), Services) + [CheckSnapshot(s)], s.target);
  }

  lemma RollbackBodyGentle(s: Snapshot, b: Baseline, staged: StagedRelease)
    ensures AllGentle(RollbackBody(s, b, staged), s.target)
  {
    hide AllGentle, QuiesceForRollback, RestoreFilesAndLink, RestoreServices;
    QuiesceGentle(s, b);
    RestoreFilesGentle(s, staged);
    RestoreServicesGentle(s);
    GentleConcat(RestoreFilesAndLink(s, staged), RestoreServices(s), s.target);
    GentleConcat(QuiesceForRollback(s, b), RestoreFilesAndLink(s, staged) + RestoreServices(s), s.target);
  }

  lemma RollbackGentle(s: Snapshot, b: Baseline, staged: StagedRelease)
    ensures AllGentle(RollbackCleanup(staged), s.target)
    ensures AllGentle(RollbackCommands(s, b, staged), s.target)
  {
    RollbackBodyGentle(s, b, staged);
    GentleList([VerifyBaseline(b)], s.target);
    GentleList(RollbackCleanup(staged), s.target);
    hide RollbackBody, RollbackCleanup;
    GentleConcat(RollbackBody(s, b, staged), RollbackCleanup(staged), s.target);
    GentleConcat([VerifyBaseline(b)], RollbackBody(s, b, staged) + RollbackCleanup(staged), s.target);
  }

  // ----- interrupted runs -----

  /** An interruption after `steps` steps; inside a tree restore it may leave any trees. */
  datatype Cut = Cut(steps: nat, wreck: Trees)

  function Tear(cmd: Cmd, p: Panel, wreck: Trees): Panel {
    if cmd.RestoreBaseline? || cmd.WriteTrees? then p.(trees := wreck) else p
  }

  function Interrupted(cmds: seq<Cmd>, cut: Cut, p: Panel): Panel {
    var q := ExecPrefix(cmds, cut.steps, p);
    if cut.steps < |cmds| then Tear(cmds[cut.steps], q, cut.wreck) else q
  }

  function InterruptedRuns(cmds: seq<Cmd>, cuts: seq<Cut>, p: Panel): Panel {
    if cuts == [] then p else InterruptedRuns(cmds, cuts[1..], Interrupted(cmds, cuts[0], p))
  }

  lemma {:induction false} InterruptedKeeps(cmds: seq<Cmd>, cuts: seq<Cut>, dir: Option<Target>, p: Panel)
    requires AllGentle(cmds, dir) && (dir.Some? ==> dir.value in p.releases)
    ensures Keeps(p, InterruptedRuns(cmds, cuts, p))
    decreases |cuts|
  {
    if cuts != [] {
      PrefixKeeps(cmds, cuts[0].steps, dir, p);
      var q := Interrupted(cmds, cuts[0], p);
      assert Keeps(p, q);
      InterruptedKeeps(cmds, cuts[1..], dir, q);
    }
  }

  /**
   * From any prefix of an activation, then any number of interrupted rollbacks, one complete
   * rollback succeeds, and files, modes, link, service bits and code read back as the snapshot with
   * no temporary of the transaction left.
   */
  lemma RollbackAbsorbs(p: Panel, s: Snapshot, staged: StagedRelease, ordinal: nat, k: nat, cuts: seq<Cut>)
    requires Sound(s) && Held(p, s)
    requires staged.Dir() in p.releases
    ensures var b := s.baseline.value;
            var rollback := RollbackCommands(s, b, staged);
            var q := InterruptedRuns(rollback, cuts, ExecPrefix(ActivateCommands(staged, ordinal), k, p));
            && Exec(rollback, q).Some?
            && var r := Exec(rollback, q).value;
               && Probe(r) == s.(baseline := None)
               && r.loaded == Units(s.files)
               && r.trees == b.capture.trees
               && (forall t :: t in r.temps ==> t.transaction != staged.transaction)
               && (forall t :: t in r.linkTemps ==> t.transaction != staged.transaction)
               && Held(r, s)
  {
    hide Exec, ExecPrefix, ActivateCommands, RollbackCommands;
    var b := s.baseline.value;
    ActivateGentle(staged, ordinal);
    PrefixKeeps(ActivateCommands(staged, ordinal), k, Some(staged.Dir()), p);
    var q0 := ExecPrefix(ActivateCommands(staged, ordinal), k, p);
    RollbackGentle(s, b, staged);
    InterruptedKeeps(RollbackCommands(s, b, staged), cuts, s.target, q0);
    var q := InterruptedRuns(RollbackCommands(s, b, staged), cuts, q0);
    RollbackRuns(q, s, staged);
    NoTempsLeft(q, s, staged);
  }

  lemma TempListed(t: Temp, staged: StagedRelease)
    requires t.transaction == staged.transaction
    ensures t in RollbackTemps(staged) + ActivationTemps(staged)
  {
    EveryOwned(t.path);
    assert t == Temp(t.kind, staged.transaction, t.path);
    match t.kind case Activation => case Rollback =>
  }

  lemma NoTempsLeft(p: Panel, s: Snapshot, staged: StagedRelease)
    requires s.baseline.Some?
    ensures var r := RestoredPanel(p, s, s.baseline.value, staged);
            && (forall t :: t in r.temps ==> t.transaction != staged.transaction)
            && (forall t :: t in r.linkTemps ==> t.transaction != staged.transaction)
  {
    var r := RestoredPanel(p, s, s.baseline.value, staged);
    forall t | t in r.temps ensures t.transaction != staged.transaction {
      if t.transaction == staged.transaction {
        TempListed(t, staged);
      }
    }
    forall t | t in r.linkTemps ensures t.transaction != staged.transaction {
      match t.kind case Activation => case Rollback =>
    }
  }

  lemma EveryOwned(path: Owned)
    ensures path in OwnedFiles
  {
    match path
    case EnvFile => assert OwnedFiles[0] == path;
    case VersionFile => assert OwnedFiles[1] == path;
    case Unit(c) =>
      match c
      case Bridge => assert OwnedFiles[2] == path;
      case Wifi => assert OwnedFiles[3] == path;
      case Bus => assert OwnedFiles[4] == path;
  }
}
