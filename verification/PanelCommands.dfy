/**
 * The command lists of panel_ops: what staging, activation, rollback, candidate restart and cleanup
 * run on a panel, step by step. A `&&` chain is one step per command.
 */
module PanelCommands {
  import opened Common
  import opened PanelState

  /** One command list per item, in order. */
  function Each<T>(f: T -> seq<Cmd>, items: seq<T>): seq<Cmd> {
    if items == [] then [] else f(items[0]) + Each(f, items[1..])
  }

  function ActivationTemp(staged: StagedRelease, path: Owned): Temp { Temp(Activation, staged.transaction, path) }

  function RollbackTemp(staged: StagedRelease, path: Owned): Temp { Temp(Rollback, staged.transaction, path) }

  function ActivationTemps(staged: StagedRelease): set<Temp> {
    set path | path in OwnedFiles :: ActivationTemp(staged, path)
  }

  function RollbackTemps(staged: StagedRelease): set<Temp> {
    set path | path in OwnedFiles :: RollbackTemp(staged, path)
  }

  function CandidateMode(path: Owned): nat { if path == EnvFile then 0x180 else 0x1a4 }

  // ----- staging -----

  function StageCommands(staged: StagedRelease, files: map<Owned, Content>): seq<Cmd> {
    [PrepareUpload(staged.Dir()), Upload(staged.Dir(), files), CheckUpload(staged.Dir()), Promote(staged.Dir())]
  }

  // ----- activation -----

  function Copy(staged: StagedRelease): Owned -> seq<Cmd> {
    path => [CopyTemp(ActivationTemp(staged, path), staged.Dir())]
  }

  function Chmod(staged: StagedRelease): Owned -> seq<Cmd> {
    path => [ChmodTemp(ActivationTemp(staged, path), CandidateMode(path))]
  }

  function StopEach(): Component -> seq<Cmd> { c => [Stop(c)] }

  function DisableUnselected(staged: StagedRelease): Component -> seq<Cmd> {
    c => if c in staged.selected then [] else [Disable(c)]
  }

  /** Env, version and the bridge unit always move; a watchdog unit moves or is removed. */
  function Select(staged: StagedRelease): Owned -> seq<Cmd> {
    path =>
      var temp := ActivationTemp(staged, path);
      if path.Unit? && path.component != Bridge && path.component !in staged.selected
      then [RemoveTempAndFile(temp)]
      else [MoveTemp(temp)]
  }

  function SwitchLink(staged: StagedRelease, kind: TempKind, dir: Target): seq<Cmd> {
    var temp := LinkTemp(kind, staged.transaction);
    [RemoveLinkTemps({temp}), PutLinkTemp(temp, dir), MoveLinkTemp(temp, dir)]
  }

  function Identify(staged: StagedRelease, ordinal: nat): Component -> seq<Cmd> {
    c => if c in staged.selected then [WriteIdentity(c, ordinal)] else []
  }

  function Converge(staged: StagedRelease): Component -> seq<Cmd> {
    c => if c in staged.selected then [Enable(c), Start(c), CheckConverged(c)] else [CheckDisabled(c), Stop(c)]
  }

  function PrepareActivation(staged: StagedRelease): seq<Cmd> {
    [CheckRelease(staged.Dir()), RemoveTemps(ActivationTemps(staged))]
    + (Each(Copy(staged), OwnedFiles) + Each(Chmod(staged), OwnedFiles))
  }

  function QuiesceForActivation(staged: StagedRelease): seq<Cmd> {
    Each(StopEach(), Services) + Each(DisableUnselected(staged), Services)
  }

  function CommitActivation(staged: StagedRelease, ordinal: nat): seq<Cmd> {
    Each(Select(staged), OwnedFiles)
      + (SwitchLink(staged, Activation, staged.Dir()) + Each(Identify(staged, ordinal), Services))
  }

  function ConvergeActivation(staged: StagedRelease): seq<Cmd> {
    [DaemonReload] + Each(Converge(staged), Services)
  }

  function ActivateCommands(staged: StagedRelease, ordinal: nat): seq<Cmd> {
    PrepareActivation(staged)
      + (QuiesceForActivation(staged) + (CommitActivation(staged, ordinal) + ConvergeActivation(staged)))
  }

  // ----- rollback -----

  function DisableRestored(s: Snapshot): Component -> seq<Cmd> {
    c => if c in s.enabled then [] else [Disable(c)]
  }

  function RestoreFile(path: Owned, file: Option<File>, staged: StagedRelease): seq<Cmd> {
    var temp := RollbackTemp(staged, path);
    if file.None? then [RemoveTemps({temp}), RemoveFile(path)]
    else [RemoveTemps({temp}), PutTemp(temp, file.value), MoveCheckedTemp(temp, file.value.mode)]
  }

  function RestoreEach(s: Snapshot, staged: StagedRelease): Owned -> seq<Cmd> {
    path => RestoreFile(path, if path in s.files then Some(s.files[path]) else None, staged)
  }

  function RestoreLink(s: Snapshot, staged: StagedRelease): seq<Cmd> {
    if s.layout.ReleaseLink? && s.target.Some? then SwitchLink(staged, Rollback, s.target.value)
    else [RemoveLink({LinkTemp(Rollback, staged.transaction)})]
  }

  function RestoreService(s: Snapshot): Component -> seq<Cmd> {
    c => [if c in s.enabled then Enable(c) else CheckDisabled(c), if c in s.active then Start(c) else Stop(c)]
  }

  function QuiesceForRollback(s: Snapshot, b: Baseline): seq<Cmd> {
    Each(StopEach(), Services) + ([RestoreBaseline(b)] + Each(DisableRestored(s), Services))
  }

  function RestoreFilesAndLink(s: Snapshot, staged: StagedRelease): seq<Cmd> {
    Each(RestoreEach(s, staged), OwnedFiles) + RestoreLink(s, staged)
  }

  function RestoreServices(s: Snapshot): seq<Cmd> {
    [DaemonReload] + (Each(RestoreService(s), Services) + [CheckSnapshot(s)])
  }

  /** The guarded body of rollback_snapshot. */
  function RollbackBody(s: Snapshot, b: Baseline, staged: StagedRelease): seq<Cmd> {
    QuiesceForRollback(s, b) + (RestoreFilesAndLink(s, staged) + RestoreServices(s))
  }

  /** The cleanup rollback_snapshot always runs last. */
  function RollbackCleanup(staged: StagedRelease): seq<Cmd> {
    [RemoveTemps(RollbackTemps(staged) + ActivationTemps(staged)),
     RemoveLinkTemps({LinkTemp(Rollback, staged.transaction), LinkTemp(Activation, staged.transaction)})]
  }

  function RollbackCommands(s: Snapshot, b: Baseline, staged: StagedRelease): seq<Cmd> {
    [VerifyBaseline(b)] + (RollbackBody(s, b, staged) + RollbackCleanup(staged))
  }

  // ----- correlated restart of a restored bridge -----

  const DeploymentKey: string := "BRILLIANT_DEPLOYMENT_ID="

  /** What may stand at the start of a line before its key. */
  const BLANKS: string := " \t\U{0B}\U{0C}"

  function LeftStrip(line: string): string {
    if line != "" && line[0] in BLANKS then LeftStrip(line[1..]) else line
  }

  predicate IsDeploymentLine(line: string) { DeploymentKey <= LeftStrip(line) }

  /** The lines of an environment file other than its deployment correlation. */
  function WithoutDeployment(content: Content): Content {
    if content == [] then []
    else if IsDeploymentLine(content[0]) then WithoutDeployment(content[1..])
    else [content[0]] + WithoutDeployment(content[1..])
  }

  /** Lower-case hexadecimal of an identifier. */
  function Hex(id: Uuid): string {
    if id < 16 then ["0123456789abcdef"[id]] else Hex(id / 16) + ["0123456789abcdef"[id % 16]]
  }

  function Zeros(n: nat): string { if n == 0 then "" else "0" + Zeros(n - 1) }

  /** The text written into the environment file: at least 32 hexadecimal digits. */
  function DeploymentText(id: Uuid): string { Zeros(if |Hex(id)| < 32 then 32 - |Hex(id)| else 0) + Hex(id) }

  function Correlate(content: Content, deployment: Uuid): Content {
    WithoutDeployment(content) + [DeploymentKey + DeploymentText(deployment)]
  }

  /** The restored snapshot once its bridge was restarted under a fresh deployment id. */
  function Correlated(s: Snapshot, deployment: Uuid): Snapshot
    requires EnvFile in s.files
  {
    var env := s.files[EnvFile];
    s.(files := s.files[EnvFile := env.(content := Correlate(env.content, deployment))])
  }

  /** `scratch` is the throw-away transaction whose temporary carries the rewritten file. */
  function RestartRestoredCommands(s: Snapshot, deployment: Uuid, scratch: Uuid): seq<Cmd>
    requires EnvFile in s.files
  {
    [Stop(Bridge)]
    + (RestoreFile(EnvFile, Some(Correlated(s, deployment).files[EnvFile]),
      StagedRelease("recovery", scratch, {Bridge}))
       + [Start(Bridge)])
  }
}
