/**
 * One panel as the provisioner sees it: the five owned files, the `current` link, the release
 * directories, the systemd bits of the three core services, the fixed code trees and the captured
 * rollback baselines. Every shell step is one `Cmd`, atomic, which either changes the panel or exits
 * non-zero and changes nothing.
 */
module PanelState {
  import opened Common

  datatype Component = Bridge | Wifi | Bus

  /** The order in which panel_ops walks the core services. */
  const Services: seq<Component> := [Bridge, Wifi, Bus]

  /** The files the fleet owns on a panel. */
  datatype Owned = EnvFile | VersionFile | Unit(component: Component)

  const OwnedFiles: seq<Owned> := [EnvFile, VersionFile, Unit(Bridge), Unit(Wifi), Unit(Bus)]

  /** File bytes, as the list of their lines. */
  type Content = seq<string>

  datatype File = File(content: Content, mode: nat)

  /** A release directory's name, `releases/<version>--<transaction>`. */
  datatype Target = Target(version: string, transaction: Uuid)

  /** Everything a baseline archive restores that the owned files do not cover: the fixed code
      trees (by digest), the staged unit copies and the release identity records. */
  datatype Trees = Trees(code: map<Component, nat>, staged: map<Component, Content>, identities: map<Component, nat>)

  /** What one completed baseline capture holds, and the release directory it pins. */
  datatype Capture = Capture(trees: Trees, target: Option<Target>)

  /** A reference to a capture. The digest binds the whole capture, so it is the capture. */
  datatype Baseline = Baseline(id: Uuid, capture: Capture)

  /** A promoted release directory; `pinned` is its `.rollback-retained` marker. */
  datatype Release = Release(files: map<Owned, Content>, pinned: Option<Uuid>)

  datatype TempKind = Activation | Rollback

  datatype Temp = Temp(kind: TempKind, transaction: Uuid, path: Owned)

  datatype LinkTemp = LinkTemp(kind: TempKind, transaction: Uuid)

  datatype Layout = Absent | LegacyFixed | ReleaseLink

  datatype Snapshot = Snapshot(
    layout: Layout,
    target: Option<Target>,
    files: map<Owned, File>,
    enabled: set<Component>,
    active: set<Component>,
    baseline: Option<Baseline>)

  datatype StagedRelease = StagedRelease(version: string, transaction: Uuid, selected: set<Component>) {
    function Dir(): Target { Target(version, transaction) }
  }

  /** What a service was last started with: its unit, the environment file, the link and the fixed code. */
  datatype Launch = Launch(
    unit: Option<File>,
    environment: Option<File>,
    link: Option<Target>,
    code: map<Component, nat>)

  datatype Panel = Panel(
    files: map<Owned, File>,
    temps: map<Temp, File>,
    linkTemps: map<LinkTemp, Target>,
    link: Option<Target>,
    releases: map<Target, Release>,
    uploads: map<Target, map<Owned, Content>>,
    enabled: set<Component>,
    active: set<Component>,
    started: map<Component, Launch>,
    loaded: map<Component, File>,
    trees: Trees,
    baselines: map<Uuid, Capture>)

  /** The unit files among the owned files, as systemd reads them on a daemon-reload. */
  function Units(files: map<Owned, File>): map<Component, File> {
    map c: Component | Unit(c) in files :: files[Unit(c)]
  }

  // ----- what the snapshot probe reads -----

  const CurrentPath: string := "/var/brilliant-mqtt/current/"

  predicate Mentions(line: string, word: string) {
    |word| <= |line| && (line[..|word|] == word || (line != "" && Mentions(line[1..], word)))
  }

  /** A unit selects the linked release when it names a path under the link. */
  predicate SelectsCurrent(content: Content) {
    exists i | 0 <= i < |content| :: Mentions(content[i], CurrentPath)
  }

  /** The unit the probe looks at: the live one, or the staged copy when that is missing. */
  function UnitChoice(files: map<Owned, File>, trees: Trees, c: Component): Option<Content> {
    if Unit(c) in files then Some(files[Unit(c)].content)
    else if c in trees.staged then Some(trees.staged[c])
    else None
  }

  predicate LinkSelected(files: map<Owned, File>, trees: Trees) {
    (forall c: Component :: UnitChoice(files, trees, c).None?)
    || exists c: Component :: UnitChoice(files, trees, c).Some? && SelectsCurrent(UnitChoice(files, trees, c).value)
  }

  predicate LegacyPaths(files: map<Owned, File>, trees: Trees) {
    files != map[] || trees.code != map[] || Wifi in trees.staged || Bus in trees.staged
  }

  function ProbeLayout(link: Option<Target>, files: map<Owned, File>, trees: Trees): Layout {
    if link.Some? then if LinkSelected(files, trees) then ReleaseLink else LegacyFixed
    else if LegacyPaths(files, trees) then LegacyFixed
    else Absent
  }

  function Probe(p: Panel): Snapshot {
    var layout := ProbeLayout(p.link, p.files, p.trees);
    Snapshot(layout, if layout.ReleaseLink? then p.link else None, p.files, p.enabled, p.active, None)
  }

  predicate Contains(line: string, word: string) {
    exists k | 0 <= k <= |line| :: word <= line[k..]
  }

  lemma {:induction false} MentionsIs(line: string, word: string)
    ensures Mentions(line, word) <==> Contains(line, word)
  {
    assert line[0..] == line;
    if line != "" {
      MentionsIs(line[1..], word);
      if Contains(line[1..], word) {
        var k :| 0 <= k <= |line[1..]| && word <= line[1..][k..];
        assert line[1..][k..] == line[k + 1..];
      }
      if Contains(line, word) && !(word <= line) {
        var k :| 0 <= k <= |line| && word <= line[k..];
        assert k > 0 && line[1..][k - 1..] == line[k..];
      }
    }
  }

  /** The unit a service would run from: the live one, or its staged copy. */
  predicate RunsFrom(p: Panel, c: Component, content: Content) {
    if Unit(c) in p.files then content == p.files[Unit(c)].content
    else c in p.trees.staged && content == p.trees.staged[c]
  }

  /** What the probe reports: a linked release when the link is there and some unit names a path under it, or
      no unit is left; a panel without anything the fleet owns as absent; and everything else as fixed. */
  lemma ProbeReads(p: Panel)
    ensures var s := Probe(p);
            && s.files == p.files && s.enabled == p.enabled && s.active == p.active && s.baseline.None?
            && (s.layout.ReleaseLink? <==> p.link.Some? && (Names(p) || Unitless(p)))
            && (s.layout.Absent? <==> p.link.None? && p.files == map[] && p.trees.code == map[]
                                      && Wifi !in p.trees.staged && Bus !in p.trees.staged)
            && s.target == if s.layout.ReleaseLink? then p.link else None
  {
    forall line: string ensures Mentions(line, CurrentPath) <==> Contains(line, CurrentPath) {
      MentionsIs(line, CurrentPath);
    }
    hide Mentions, Contains;
    forall c: Component, content: Content
      ensures RunsFrom(p, c, content) <==> UnitChoice(p.files, p.trees, c) == Some(content) {}
    NamesIs(p);
  }

  ghost predicate Names(p: Panel) {
    exists c: Component, content: Content, i: nat ::
      RunsFrom(p, c, content) && i < |content| && Contains(content[i], "/var/brilliant-mqtt/current/")
  }

  ghost predicate Unitless(p: Panel) { forall c: Component :: Unit(c) !in p.files && c !in p.trees.staged }

  lemma NamesIs(p: Panel)
    requires forall line: string :: Mentions(line, CurrentPath) <==> Contains(line, CurrentPath)
    requires forall c: Component, content: Content ::
               RunsFrom(p, c, content) <==> UnitChoice(p.files, p.trees, c) == Some(content)
    ensures LinkSelected(p.files, p.trees) <==> Names(p) || Unitless(p)
  {
    hide Mentions, Contains, RunsFrom;
    if Names(p) {
      var c: Component, content: Content, i: nat :|
        RunsFrom(p, c, content) && i < |content| && Contains(content[i], "/var/brilliant-mqtt/current/");
      assert Mentions(content[i], CurrentPath);
      assert SelectsCurrent(content);
    }
    if LinkSelected(p.files, p.trees) && !Unitless(p) { SelectedNames(p); }
    assert Unitless(p) <==> forall c: Component :: UnitChoice(p.files, p.trees, c).None?;
  }

  lemma SelectedNames(p: Panel)
    requires forall line: string :: Mentions(line, CurrentPath) <==> Contains(line, CurrentPath)
    requires forall c: Component, content: Content ::
               RunsFrom(p, c, content) <==> UnitChoice(p.files, p.trees, c) == Some(content)
    requires LinkSelected(p.files, p.trees) && !Unitless(p)
    ensures Names(p)
  {
    hide Mentions, Contains, RunsFrom;
    var d: Component :| Unit(d) in p.files || d in p.trees.staged;
    assert UnitChoice(p.files, p.trees, d).Some?;
    var c: Component :| UnitChoice(p.files, p.trees, c).Some? && SelectsCurrent(UnitChoice(p.files, p.trees, c).value);
    var content := UnitChoice(p.files, p.trees, c).value;
    var i :| 0 <= i < |content| && Mentions(content[i], CurrentPath);
    assert RunsFrom(p, c, content) && Contains(content[i], CurrentPath);
  }

  /** The checks of a snapshot's constructor. */
  predicate ValidSnapshot(s: Snapshot) {
    && (forall c :: c in s.enabled || c in s.active ==> Unit(c) in s.files)
    && (s.layout.ReleaseLink? <==> s.target.Some?)
    && (s.layout.ReleaseLink? ==> EnvFile in s.files && VersionFile in s.files && Unit(Bridge) in s.files)
    && (s.layout.Absent? ==> s.files == map[])
  }

  /** Only a running bridge with an environment file can later prove a restore over MQTT. */
  predicate Correlatable(s: Snapshot) {
    s.layout.Absent? || (Bridge in s.active && EnvFile in s.files)
  }

  // ----- shell steps -----

  datatype Cmd =
    | Stop(c: Component)
    | Start(c: Component)
    | Enable(c: Component)
    | Disable(c: Component)
    | CheckDisabled(c: Component)
    | CheckRunning(c: Component)
    | CheckConverged(c: Component)
    | DaemonReload
    | RemoveTemps(temps: set<Temp>)
    | CopyTemp(temp: Temp, dir: Target)
    | ChmodTemp(temp: Temp, mode: nat)
    | PutTemp(temp: Temp, file: File)
    | MoveTemp(temp: Temp)
    | MoveCheckedTemp(temp: Temp, mode: nat)
    | RemoveFile(path: Owned)
    | RemoveTempAndFile(temp: Temp)
    | RemoveLinkTemps(linkTemps: set<LinkTemp>)
    | PutLinkTemp(linkTemp: LinkTemp, dir: Target)
    | MoveLinkTemp(linkTemp: LinkTemp, dir: Target)
    | RemoveLink(linkTemps: set<LinkTemp>)
    | CheckLinkIs(dir: Target)
    | PrepareUpload(dir: Target)
    | Upload(dir: Target, files: map<Owned, Content>)
    | CheckUpload(dir: Target)
    | Promote(dir: Target)
    | CheckRelease(dir: Target)
    | RemoveUpload(dir: Target)
    | Prune(dir: Target)
    | WriteIdentity(c: Component, ordinal: nat)
    | CaptureBaseline(id: Uuid, snapshot: Snapshot)
    | VerifyBaseline(b: Baseline)
    | RestoreBaseline(b: Baseline)
    | FinalizeBaseline(id: Uuid)
    | CheckSnapshot(snapshot: Snapshot)
    | WriteFile(path: Owned, file: File)
    | WriteTrees(trees: Trees)

  /** `verify`: the capture is complete on the panel and the release it pins is untouched. */
  predicate BaselineIntact(p: Panel, b: Baseline) {
    && b.id in p.baselines
    && p.baselines[b.id] == b.capture
    && (b.capture.target.Some? ==>
          b.capture.target.value in p.releases && p.releases[b.capture.target.value].pinned == Some(b.id))
  }

  /** Prune guards: never a pinned release (exit 49), never the selected one (exit 47). */
  predicate Prunable(p: Panel, dir: Target) {
    && (dir in p.releases ==> p.releases[dir].pinned.None?)
    && p.link != Some(dir)
  }

  function Pin(p: Panel, dir: Option<Target>, mark: Option<Uuid>): map<Target, Release> {
    if dir.Some? && dir.value in p.releases
    then p.releases[dir.value := p.releases[dir.value].(pinned := mark)]
    else p.releases
  }

  function LaunchOf(p: Panel, c: Component): Launch {
    Launch(if c in p.loaded then Some(p.loaded[c]) else None,
           if EnvFile in p.files then Some(p.files[EnvFile]) else None,
           p.link, p.trees.code)
  }

  /** Starting a service that runs does nothing: it goes on with what it was started with. */
  function Started(p: Panel, c: Component): Panel {
    if c in p.active then p else p.(active := p.active + {c}, started := p.started[c := LaunchOf(p, c)])
  }

  /** Every running service was started with what the panel holds now. */
  predicate Launched(p: Panel) { forall c :: c in p.active ==> c in p.started && p.started[c] == LaunchOf(p, c) }

  /** The effect of one shell step, or None when it exits non-zero. */
  function Apply(cmd: Cmd, p: Panel): Option<Panel> {
    match cmd
    case Stop(c) => Some(p.(active := p.active - {c}))
    case Start(c) => if c in p.loaded then Some(Started(p, c)) else None
    case Enable(c) => if Unit(c) in p.files then Some(p.(enabled := p.enabled + {c})) else None
    case Disable(c) => Some(p.(enabled := p.enabled - {c}))
    case CheckDisabled(c) => if c !in p.enabled then Some(p) else None
    case CheckRunning(c) => if c in p.active then Some(p) else None
    case CheckConverged(c) => if c in p.enabled && c in p.active then Some(p) else None
    case DaemonReload => Some(p.(loaded := Units(p.files)))
    case RemoveTemps(temps) => Some(p.(temps := p.temps - temps))
    case CopyTemp(temp, dir) =>
      if dir in p.releases && temp.path in p.releases[dir].files
      then Some(p.(temps := p.temps[temp := File(p.releases[dir].files[temp.path], 0)]))
      else None
    case ChmodTemp(temp, mode) =>
      if temp in p.temps then Some(p.(temps := p.temps[temp := p.temps[temp].(mode := mode)])) else None
    case PutTemp(temp, file) => Some(p.(temps := p.temps[temp := file]))
    case MoveTemp(temp) =>
      if temp in p.temps
      then Some(p.(files := p.files[temp.path := p.temps[temp]], temps := p.temps - {temp}))
      else None
    case MoveCheckedTemp(temp, mode) =>
      if temp in p.temps && p.temps[temp].mode == mode
      then Some(p.(files := p.files[temp.path := p.temps[temp]], temps := p.temps - {temp}))
      else None
    case RemoveFile(path) => Some(p.(files := p.files - {path}))
    case RemoveTempAndFile(temp) => Some(p.(files := p.files - {temp.path}, temps := p.temps - {temp}))
    case RemoveLinkTemps(linkTemps) => Some(p.(linkTemps := p.linkTemps - linkTemps))
    case PutLinkTemp(linkTemp, dir) =>
      if linkTemp !in p.linkTemps then Some(p.(linkTemps := p.linkTemps[linkTemp := dir])) else None
    case MoveLinkTemp(linkTemp, dir) =>
      if linkTemp in p.linkTemps && p.linkTemps[linkTemp] == dir
      then Some(p.(link := Some(dir), linkTemps := p.linkTemps - {linkTemp}))
      else None
    case RemoveLink(linkTemps) => Some(p.(link := None, linkTemps := p.linkTemps - linkTemps))
    case CheckLinkIs(dir) => if p.link == Some(dir) then Some(p) else None
    case PrepareUpload(dir) => if dir !in p.releases then Some(p.(uploads := p.uploads - {dir})) else None
    case Upload(dir, files) => Some(p.(uploads := p.uploads[dir := files]))
    case CheckUpload(dir) =>
      if dir in p.uploads && (forall path :: path in OwnedFiles ==> path in p.uploads[dir])
      then Some(p) else None
    case Promote(dir) =>
      if dir in p.uploads && dir !in p.releases
      then Some(p.(releases := p.releases[dir := Release(p.uploads[dir], None)], uploads := p.uploads - {dir}))
      else None
    case CheckRelease(dir) =>
      if dir in p.releases && (forall path :: path in OwnedFiles ==> path in p.releases[dir].files)
      then Some(p) else None
    case RemoveUpload(dir) => Some(p.(uploads := p.uploads - {dir}))
    case Prune(dir) => if Prunable(p, dir) then Some(p.(releases := p.releases - {dir})) else None
    case WriteIdentity(c, ordinal) =>
      Some(p.(trees := p.trees.(identities := p.trees.identities[c := ordinal])))
    case CaptureBaseline(id, s) =>
      if id !in p.baselines && Correlatable(s) && Probe(p) == s
         && (s.target.Some? ==> s.target.value in p.releases && p.releases[s.target.value].pinned.None?)
      then Some(p.(baselines := p.baselines[id := Capture(p.trees, s.target)], releases := Pin(p, s.target, Some(id))))
      else None
    case VerifyBaseline(b) => if BaselineIntact(p, b) then Some(p) else None
    case RestoreBaseline(b) => if BaselineIntact(p, b) then Some(p.(trees := b.capture.trees)) else None
    case FinalizeBaseline(id) =>
      if id in p.baselines
      then Some(p.(releases := Pin(p, p.baselines[id].target, None), baselines := p.baselines - {id}))
      else Some(p)
    case CheckSnapshot(s) => if ValidSnapshot(Probe(p)) && Probe(p) == s.(baseline := None) then Some(p) else None
    case WriteFile(path, file) => Some(p.(files := p.files[path := file]))
    case WriteTrees(trees) => Some(p.(trees := trees))
  }

  /** Run a command list; None as soon as one step exits non-zero. */
  function Exec(cmds: seq<Cmd>, p: Panel): Option<Panel> {
    if cmds == [] then Some(p)
    else
      match Apply(cmds[0], p)
      case None => None
      case Some(q) => Exec(cmds[1..], q)
  }

  /** Where a list leaves the panel when it is cut after `k` steps, or stops at a failing one. */
  function ExecPrefix(cmds: seq<Cmd>, k: nat, p: Panel): Panel {
    if cmds == [] || k == 0 then p
    else
      match Apply(cmds[0], p)
      case None => p
      case Some(q) => ExecPrefix(cmds[1..], k - 1, q)
  }

  lemma {:induction false} ExecConcat(a: seq<Cmd>, b: seq<Cmd>, p: Panel)
    ensures Exec(a + b, p) == match Exec(a, p) case None => None case Some(q) => Exec(b, q)
  {
    if a == [] {
      assert a + b == b;
    } else {
      assert (a + b)[0] == a[0] && (a + b)[1..] == a[1..] + b;
      match Apply(a[0], p)
      case None =>
      case Some(q) => ExecConcat(a[1..], b, q);
    }
  }
}
