/**
 * One release transaction on a panel: the admission object gates every code and unit writer. Reading
 * the panel hashes the live selection, keeps an ordinal only while digest and place still match the
 * recorded one, and enrolls what it saw. A writer may be cut after any of its durable writes.
 */
module ReleaseWriters {
  import opened Common
  import PanelState
  import opened ReleaseIdentity

  type Component = PanelState.Component

  const Bridge: Component := PanelState.Bridge

  /** A code tree: its digest, and what the version file beside it says, if there is one. */
  datatype Code = Code(version: Option<Version>, digest: nat)

  /** A unit file; `linked` when it runs the code under the `current` link. */
  datatype UnitFile = UnitFile(text: string, linked: bool)

  /**
   * What a panel holds: the digests of its fixed trees and their version files, the release under the
   * link and its units, the live units, and the copies staged for when an update of the firmware drops
   * them. The bridge's version file and staged unit lie beside its code; a watchdog's lie in the
   * directory that holds its code.
   */
  datatype PanelCode = PanelCode(
    fixed: map<Component, nat>,
    versions: map<Component, Version>,
    link: Option<map<Component, Code>>,
    linkUnits: map<Component, UnitFile>,
    live: map<Component, UnitFile>,
    staged: map<Component, UnitFile>,
    records: map<Component, Identity>,
    deployment: Option<string>,
    consumed: set<Uuid>)

  // ----- reading -----

  function UnitOf(p: PanelCode, c: Component): Option<UnitFile> {
    if c in p.live then Some(p.live[c]) else if c in p.staged then Some(p.staged[c]) else None
  }

  /** A surviving link must not hide an already selected fixed-path unit. */
  predicate RunsLinked(p: PanelCode, c: Component) {
    p.link.Some? && (UnitOf(p, c).None? || UnitOf(p, c).value.linked)
  }

  function Live(p: PanelCode, c: Component): Option<Code> {
    if RunsLinked(p, c) then if c in p.link.value then Some(p.link.value[c]) else None
    else if c in p.fixed then Some(Code(if c in p.versions then Some(p.versions[c]) else None, p.fixed[c])) else None
  }

  function Digest(p: PanelCode, c: Component): Option<nat> {
    if Live(p, c).Some? then Some(Live(p, c).value.digest) else None
  }

  /** The bridge runs its fixed tree under a version from before the first ordinal. */
  predicate OldBridge(p: PanelCode) {
    !RunsLinked(p, Bridge) && Bridge in p.fixed && Bridge in p.versions && OldLabel(p.versions[Bridge])
  }

  /** A fixed watchdog without a version file is taken to be of the old bridge's release. */
  function Label(p: PanelCode, c: Component): Version {
    if Live(p, c).Some? && Live(p, c).value.version.Some? then Live(p, c).value.version.value
    else if c != Bridge && !RunsLinked(p, c) && OldBridge(p) then p.versions[Bridge]
    else Other("unknown")
  }

  function PlaceOf(p: PanelCode, c: Component): Place { if RunsLinked(p, c) then Linked else Fixed }

  function KnownOrdinal(p: PanelCode, c: Component, digest: nat): Option<nat> {
    if c in p.records && p.records[c].digest == digest && p.records[c].place == PlaceOf(p, c)
    then p.records[c].ordinal else None
  }

  function Identify(p: PanelCode, c: Component): Option<Identity> {
    match Live(p, c)
    case None => None
    case Some(code) =>
      Some(Identity(Label(p, c), KnownOrdinal(p, c, code.digest), code.digest, p.deployment, PlaceOf(p, c)))
  }

  /** The reader refuses a panel whose recorded code is gone. */
  predicate Readable(p: PanelCode) { forall c: Component :: Live(p, c).None? ==> c !in p.records }

  /** What reading leaves behind: the identity just seen, for every component that has code. */
  function Enroll(p: PanelCode): PanelCode {
    p.(records := map c: Component | Live(p, c).Some? :: Identify(p, c).value)
  }

  /** A record is no part of what runs. */
  lemma RecordsAside(p: PanelCode, q: PanelCode, c: Component)
    requires q == p.(records := q.records)
    ensures Live(q, c) == Live(p, c) && RunsLinked(q, c) == RunsLinked(p, c)
    ensures OldBridge(q) == OldBridge(p) && Label(q, c) == Label(p, c)
  {
    hide OldLabel;
  }

  lemma EnrollIs(p: PanelCode, c: Component)
    ensures Enroll(p) == p.(records := Enroll(p).records)
    ensures c in Enroll(p).records <==> Live(p, c).Some?
    ensures Live(p, c).Some? ==> Some(Enroll(p).records[c]) == Identify(p, c)
  {
    hide Live, Label, KnownOrdinal;
  }

  lemma EnrollReads(p: PanelCode, c: Component)
    ensures Live(Enroll(p), c) == Live(p, c) && Identify(Enroll(p), c) == Identify(p, c)
    ensures RunsLinked(Enroll(p), c) == RunsLinked(p, c) && OldBridge(Enroll(p)) == OldBridge(p)
  {
    hide Enroll, Live, Label, RunsLinked, OldBridge;
    EnrollIs(p, c);
    RecordsAside(p, Enroll(p), c);
  }

  // ----- admission -----

  datatype Policy = Admit | Bootstrap | Frozen

  datatype Admission = Admission(
    candidate: map<Component, Identity>,
    incumbent: map<Component, Option<Identity>>,
    changes: map<Component, bool>,
    transaction: Uuid,
    overridden: bool,
    pending: set<Component>,
    active: bool,
    policy: Policy)

  /** An operator's approval, bound to exactly what it was given for. */
  datatype Override = Override(
    transaction: Uuid,
    incumbent: map<Component, Option<Identity>>,
    candidate: map<Component, Identity>)

  datatype Plan = Plan(
    bundle: map<Component, Identity>,
    selected: set<Component>,
    override: Option<Override>,
    transaction: Uuid,
    allowPreOrdinal: bool,
    policy: Policy)
  {
    function Chosen(): set<Component> { selected + {Bridge} }

    function Transaction(): Uuid { if override.Some? then override.value.transaction else transaction }
  }

  function Incumbents(p: PanelCode, chosen: set<Component>): map<Component, Option<Identity>> {
    map c | c in chosen :: Identify(p, c)
  }

  function Candidates(plan: Plan): map<Component, Identity>
    requires plan.Chosen() <= plan.bundle.Keys
  {
    map c | c in plan.Chosen() :: plan.bundle[c]
  }

  /** Every refusal of the admission, in one place. */
  predicate Admissible(p: PanelCode, plan: Plan) {
    && Readable(p)
    && plan.Chosen() <= plan.bundle.Keys
    && (plan.override.Some? ==>
          plan.override.value.incumbent == Incumbents(p, plan.Chosen())
            && plan.override.value.candidate == Candidates(plan)
          && plan.override.value.transaction !in p.consumed)
    && (forall c :: c in plan.Chosen() ==>
          (IsPreOrdinalUpgrade(Identify(p, c), plan.bundle[c]) ==> plan.allowPreOrdinal)
          && (plan.override.None? ==> !AdmitIdentity(Identify(p, c), plan.bundle[c]).Blocked?))
  }

  /** The recorded ordinal still counts: the record names the code that runs, in the place it runs from. */
  predicate Numbered(p: PanelCode, c: Component) {
    && Live(p, c).Some? && c in p.records && p.records[c].ordinal.Some?
    && p.records[c].digest == Live(p, c).value.digest && p.records[c].place == PlaceOf(p, c)
  }

  /** An ordinary update of one component: nothing there, the same code, or code under a lower ordinal. */
  predicate Ordinary(p: PanelCode, c: Component, bundle: Identity) {
    || Live(p, c).None? || Live(p, c).value.digest == bundle.digest
    || (Numbered(p, c) && bundle.ordinal.Some? && p.records[c].ordinal.value < bundle.ordinal.value)
  }

  /** The one upgrade that needs the caller's leave: old code no ordinal is known for, to an ordinal bundle. */
  predicate FirstUpgrade(p: PanelCode, c: Component, bundle: Identity) {
    && Live(p, c).Some? && Live(p, c).value.digest != bundle.digest
    && !Numbered(p, c)
    && Label(p, c).Strict? && Label(p, c).major == 0 && Label(p, c).minor < 11
    && bundle.ordinal.Some? && bundle.version.Strict? && (bundle.version.major > 0 || bundle.version.minor >= 11)
  }

  lemma VerdictIs(p: PanelCode, c: Component, bundle: Identity)
    ensures !AdmitIdentity(Identify(p, c), bundle).Blocked? <==> Ordinary(p, c, bundle) || FirstUpgrade(p, c, bundle)
    ensures IsPreOrdinalUpgrade(Identify(p, c), bundle) <==> FirstUpgrade(p, c, bundle)
    ensures !(Ordinary(p, c, bundle) && FirstUpgrade(p, c, bundle))
  {
  }

  /** Which plans are admitted. Without an override: every chosen component is an ordinary update, or a first
      upgrade the caller allows. With one: the override names exactly what the panel shows and what the bundle
      brings, was never consumed, and any first upgrade is allowed. */
  lemma AdmissibleIs(p: PanelCode, plan: Plan)
    ensures Admissible(p, plan) <==>
              && (forall c: Component :: c in p.records ==> Live(p, c).Some?)
              && (forall c :: c == Bridge || c in plan.selected ==> c in plan.bundle)
              && (match plan.override
                  case None =>
                    forall c :: c == Bridge || c in plan.selected ==>
                      Ordinary(p, c, plan.bundle[c]) || (plan.allowPreOrdinal && FirstUpgrade(p, c, plan.bundle[c]))
                  case Some(o) =>
                    && o.transaction !in p.consumed
                    && o.incumbent.Keys == o.candidate.Keys == plan.selected + {Bridge}
                    && forall c :: c == Bridge || c in plan.selected ==>
                         && o.incumbent[c] == Identify(p, c) && o.candidate[c] == plan.bundle[c]
                         && (FirstUpgrade(p, c, plan.bundle[c]) ==> plan.allowPreOrdinal))
  {
    hide Live, Identify, AdmitIdentity, IsPreOrdinalUpgrade, Ordinary, FirstUpgrade;
    forall c: Component | c in plan.bundle
      ensures !AdmitIdentity(Identify(p, c), plan.bundle[c]).Blocked? <==>
                Ordinary(p, c, plan.bundle[c]) || FirstUpgrade(p, c, plan.bundle[c])
      ensures IsPreOrdinalUpgrade(Identify(p, c), plan.bundle[c]) <==> FirstUpgrade(p, c, plan.bundle[c])
      ensures !(Ordinary(p, c, plan.bundle[c]) && FirstUpgrade(p, c, plan.bundle[c]))
    {
      VerdictIs(p, c, plan.bundle[c]);
    }
  }

  function Begin(p: PanelCode, plan: Plan): State
    requires Admissible(p, plan)
  {
    var seen := Enroll(p);
    State(seen.(consumed := if plan.override.Some? then p.consumed + {plan.Transaction()} else p.consumed),
          Admission(Candidates(plan), Incumbents(p, plan.Chosen()),
                    map c | c in plan.Chosen() :: AdmitIdentity(Identify(p, c), plan.bundle[c]) != Unchanged,
                    plan.Transaction(), plan.override.Some?, {}, true, plan.policy),
          [], [])
  }

  // ----- the writers -----

  /** A bundled unit written for a component, and the digest of its live code just before. */
  datatype UnitWrite = UnitWrite(component: Component, over: Option<nat>)

  datatype State = State(p: PanelCode, a: Admission, installs: seq<Component>, unitWrites: seq<UnitWrite>)

  /** Done; refused before any code or unit was written; or torn by a failure after that. */
  datatype Outcome = Done | Refused | Torn

  predicate Same(p: PanelCode, a: Admission) { forall c :: c in a.incumbent ==> Identify(p, c) == a.incumbent[c] }

  /** The panel still is what was admitted, and the transaction covers this component. */
  predicate Guarded(s: State, c: Component) {
    s.a.active && c in s.a.changes && c in s.a.incumbent && c in s.a.candidate && Readable(s.p) && Same(s.p, s.a)
  }

  /** Any read enrolls, also one whose check then fails. */
  function Seen(s: State): State { if Readable(s.p) then s.(p := Enroll(s.p)) else s }

  predicate Keeps(s: State, c: Component)
    requires c in s.a.changes && c in s.a.incumbent && c in s.a.candidate
  {
    && !s.a.policy.Admit? && s.a.incumbent[c].Some? && s.a.changes[c] && c !in s.a.pending
    && s.a.incumbent[c].value.digest != s.a.candidate[c].digest
  }

  predicate CodeChangeAllowed(s: State, c: Component)
    requires c in s.a.incumbent
  {
    s.a.policy.Admit? || (s.a.policy.Bootstrap? && s.a.incumbent[c].None?)
  }

  predicate HasCandidateCode(s: State, c: Component)
    requires c in s.a.incumbent && c in s.a.candidate
  {
    s.a.incumbent[c].None? || c in s.a.pending || s.a.incumbent[c].value.digest == s.a.candidate[c].digest
  }

  /** The swap moves a watchdog's whole directory aside, with its version file and its staged unit; the
      bridge's stay where they are. */
  function Swapped(s: State, c: Component): State
    requires c in s.a.candidate
  {
    var moved := if c == Bridge then {} else {c};
    s.(p := s.p.(fixed := s.p.fixed[c := s.a.candidate[c].digest],
                 versions := s.p.versions - moved, staged := s.p.staged - moved),
       installs := s.installs + [c])
  }

  function Versioned(s: State, c: Component): State
    requires c in s.a.candidate
  {
    s.(p := s.p.(versions := s.p.versions[c := s.a.candidate[c].version]))
  }

  /** Publish the ordinal, but only after hashing the selected code again. `cut` 0 and 1 fail before
      and after the record is written. */
  function Complete(s: State, c: Component, cut: nat): (State, Outcome)
    requires c in s.a.candidate
  {
    if !Readable(s.p) then (s, Torn)
    else
      var seen := Seen(s);
      var identity := Identify(s.p, c);
      if identity.None? || identity.value.digest != s.a.candidate[c].digest || cut == 0 then (seen, Torn)
      else
        var published := identity.value.(ordinal := s.a.candidate[c].ordinal);
        var written := seen.(p := seen.p.(records := seen.p.records[c := published]));
        if cut == 1 then (written, Torn)
        else (written.(a := s.a.(incumbent := s.a.incumbent[c := Some(published)], pending := s.a.pending - {c})), Done)
  }

  /** Replace a component's fixed code tree; cut 0 to 4 after the guard, the swap, the version file,
      the pending mark and the published record. */
  function Deploy(s: State, c: Component, version: Version, cut: nat): (State, Outcome) {
    if !Guarded(s, c) then (Seen(s), Refused)
    else
      var g := Seen(s);
      if !g.a.changes[c] then (g, Done)
      else if !CodeChangeAllowed(g, c) || version != g.a.candidate[c].version || cut == 0 then (g, Refused)
      else if cut == 1 then (Swapped(g, c), Torn)
      else
        var written := Versioned(Swapped(g, c), c);
        if cut == 2 then (written, Torn)
        else
          var marked := written.(a := g.a.(pending := g.a.pending + {c}));
          if g.a.incumbent[c].None? || g.a.incumbent[c].value.place.Fixed? then Complete(marked, c, cut - 3)
          else (marked, Done)
  }

  /** The unit a kept or unchanged component goes on with. */
  function PreservedUnit(s: State, c: Component, fallback: Option<UnitFile>): Option<UnitFile>
    requires c in s.a.incumbent && s.a.incumbent[c].Some?
  {
    if c in s.p.live then Some(s.p.live[c])
    else if s.a.incumbent[c].value.place.Linked? then if c in s.p.linkUnits then Some(s.p.linkUnits[c]) else None
    else if c in s.p.staged then Some(s.p.staged[c])
    else fallback
  }

  function WithUnit(s: State, c: Component, unit: UnitFile, both: bool): State {
    s.(p := s.p.(live := s.p.live[c := unit], staged := if both then s.p.staged[c := unit] else s.p.staged))
  }

  function Preserve(s: State, c: Component, fallback: Option<UnitFile>, cut: nat): (State, Outcome)
    requires c in s.a.incumbent && s.a.incumbent[c].Some?
  {
    var unit := PreservedUnit(s, c, fallback);
    if unit.None? || cut == 0 then (s, Refused)
    else
      var logged := if PreservedUnit(s, c, None).None?
        then s.(unitWrites := s.unitWrites + [UnitWrite(c, Digest(s.p, c))]) else s;
      if cut == 1 then (WithUnit(logged, c, unit.value, false), Torn) else (WithUnit(logged, c, unit.value, true), Done)
  }

  /** Select the bundled unit, then publish what is pending for it. */
  function SelectBundled(s: State, c: Component, unit: UnitFile, cut: nat): (State, Outcome)
    requires c in s.a.candidate
  {
    if cut == 0 then (s, Refused)
    else
      var logged := s.(unitWrites := s.unitWrites + [UnitWrite(c, Digest(s.p, c))]);
      if cut == 1 then (WithUnit(logged, c, unit, false), Torn)
      else
        var written := WithUnit(logged, c, unit, true);
        if c in s.a.pending then Complete(written, c, cut - 2) else (written, Done)
  }

  /** A watchdog unit: kept, preserved, or the bundled one. */
  function EnsureUnit(s: State, c: Component, unit: UnitFile, cut: nat): (State, Outcome) {
    if !Guarded(s, c) then (Seen(s), Refused)
    else
      var g := Seen(s);
      if Keeps(g, c) then Preserve(g, c, None, cut)
      else if !g.a.changes[c] then if g.a.incumbent[c].Some? then Preserve(g, c, Some(unit), cut) else (g, Refused)
      else if !HasCandidateCode(g, c) then (g, Refused)
      else SelectBundled(g, c, unit, cut)
  }

  function WithDeployment(s: State, deployment: Option<string>): State { s.(p := s.p.(deployment := deployment)) }

  /** Re-read every admitted component under the new correlation. */
  function Refresh(s: State, deployment: Option<string>): (State, Outcome) {
    if deployment.None? then (s, Done)
    else
      var expected := map c | c in s.a.incumbent ::
        (if s.a.incumbent[c].Some? then Some(s.a.incumbent[c].value.(deployment := deployment)) else None);
      if Readable(s.p) && (forall c :: c in expected ==> Identify(s.p, c) == expected[c])
      then (Seen(s).(a := s.a.(incumbent := expected)), Done)
      else (Seen(s), Torn)
  }

  /** The environment keeps the incumbent's correlation unless the new text carries one. */
  function NewDeployment(s: State, env: Option<string>): Option<string>
    requires Bridge in s.a.incumbent
  {
    if env.None? && s.a.incumbent[Bridge].Some? then s.a.incumbent[Bridge].value.deployment else env
  }

  /** The bundled bridge unit and the environment around it, then what is pending, then the
      correlation; cut 1 to 3 after the live unit, the live environment and the staged copies. */
  function SelectConfigured(s: State, unit: UnitFile, deployment: Option<string>, cut: nat): (State, Outcome)
    requires Bridge in s.a.candidate
  {
    if cut == 0 then (s, Refused)
    else
      var logged := s.(unitWrites := s.unitWrites + [UnitWrite(Bridge, Digest(s.p, Bridge))]);
      if cut == 1 then (WithUnit(logged, Bridge, unit, false), Torn)
      else if cut == 2 then (WithDeployment(WithUnit(logged, Bridge, unit, false), deployment), Torn)
      else
        var written := WithDeployment(WithUnit(logged, Bridge, unit, true), deployment);
        if cut == 3 then (written, Torn)
        else if Bridge !in s.a.pending then Refresh(written, deployment)
        else
          var (completed, outcome) := Complete(written, Bridge, cut - 4);
          if outcome.Done? then Refresh(completed, deployment) else (completed, outcome)
  }

  /** The same around a unit that is kept. */
  function PreserveConfigured(s: State, fallback: Option<UnitFile>, deployment: Option<string>, cut: nat,
      envCut: nat): (State, Outcome)
    requires Bridge in s.a.incumbent && s.a.incumbent[Bridge].Some?
  {
    var (kept, outcome) := Preserve(s, Bridge, fallback, cut);
    if !outcome.Done? then (kept, outcome)
    else if envCut == 0 then (kept, Torn)
    else
      var written := WithDeployment(kept, deployment);
      if envCut == 1 then (written, Torn) else Refresh(written, deployment)
  }

  /** The bridge's unit and environment, under the transaction's correlation. */
  function EnsureConfigs(s: State, unit: UnitFile, env: Option<string>, cut: nat, envCut: nat): (State, Outcome) {
    if !Guarded(s, Bridge) then (Seen(s), Refused)
    else
      var g := Seen(s);
      var deployment := NewDeployment(g, env);
      if Keeps(g, Bridge) then PreserveConfigured(g, None, deployment, cut, envCut)
      else if !HasCandidateCode(g, Bridge) then (g, Refused)
      else if g.a.changes[Bridge] then SelectConfigured(g, unit, deployment, cut)
      else if g.a.incumbent[Bridge].Some? then PreserveConfigured(g, Some(unit), deployment, cut, envCut)
      else (g, Refused)
  }

  datatype Call =
    | CallDeploy(component: Component, version: Version, cut: nat)
    | CallUnit(component: Component, unit: UnitFile, cut: nat)
    | CallConfigs(unit: UnitFile, env: Option<string>, cut: nat, envCut: nat)

  function Write(s: State, call: Call): (State, Outcome) {
    match call
    case CallDeploy(c, version, cut) => Deploy(s, c, version, cut)
    case CallUnit(c, unit, cut) => EnsureUnit(s, c, unit, cut)
    case CallConfigs(unit, env, cut, envCut) => EnsureConfigs(s, unit, env, cut, envCut)
  }

  function WriteAll(s: State, calls: seq<Call>): State
    decreases |calls|
  {
    if calls == [] then s else WriteAll(Write(s, calls[0]).0, calls[1..])
  }
}
