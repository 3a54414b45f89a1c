/**
 * Whole deployment histories of one component: sessions of writers under any policy, and activations
 * of a staged release. An activation that fails is rolled back by the provisioning transaction, so a
 * history without rollbacks holds only activations that completed.
 */
module ReleaseHistory {
  import opened Common
  import opened ReleaseIdentity
  import opened ReleaseWriters
  import opened ReleaseBounds

  // ----- one session -----

  /** A watchdog whose fixed unit survives only as its staged copy, beside a link: the swap of its code
      takes that copy away. */
  predicate StagedOnly(p: PanelCode, c: Component) {
    c != Bridge && p.link.Some? && c !in p.live && c in p.staged && !p.staged[c].linked
  }

  /** What every writer keeps of one component, whatever the policy. */
  ghost predicate Tracked(s0: State, s: State, c: Component) {
    && c in s0.a.candidate && c in s0.a.incumbent && s0.a.incumbent[c].Some?
    && c in s.a.incumbent && s.a.incumbent[c].Some? && c in s.a.changes && c in s0.a.changes
    && s.a.candidate == s0.a.candidate && s.a.changes == s0.a.changes
    && s.p.link == s0.p.link && s.p.linkUnits == s0.p.linkUnits && !StagedOnly(s.p, c)
    && var old0 := s0.a.incumbent[c].value.digest;
       var new0 := s0.a.candidate[c].digest;
       && (!s0.a.changes[c] ==> old0 == new0)
       && (s.a.incumbent[c].value.digest == old0 || s.a.incumbent[c].value.digest == new0)
       && Live(s.p, c).Some? && (Live(s.p, c).value.digest == old0 || Live(s.p, c).value.digest == new0)
       && (c in s.a.pending ==> c in s.p.fixed && s.p.fixed[c] == new0)
       && (RunsLinked(s.p, c) ==> RunsLinked(s0.p, c) && Live(s.p, c).value.digest == old0)
  }

  lemma SeenTracked(s0: State, s: State, c: Component)
    requires Tracked(s0, s, c)
    ensures Tracked(s0, Seen(s), c)
  {
    EnrollReads(s.p, c);
    hide Readable, Identify;
  }

  lemma CompleteTracked(s0: State, s: State, c: Component, d: Component, cut: nat)
    requires Tracked(s0, s, c) && d in s.a.candidate
    ensures Tracked(s0, Complete(s, d, cut).0, c)
  {
    hide Readable, Enroll, RunsLinked, Live, Identify;
    CompleteReads(s, d, cut, c);
  }

  lemma EnrollFrame(p: PanelCode)
    ensures var q := Enroll(p); q == p.(records := q.records)
  {
  }

  lemma CompleteReads(s: State, d: Component, cut: nat, c: Component)
    ensures d in s.a.candidate ==>
              var t := Complete(s, d, cut).0;
              Live(t.p, c) == Live(s.p, c) && RunsLinked(t.p, c) == RunsLinked(s.p, c)
              && OldBridge(t.p) == OldBridge(s.p) && t.p == s.p.(records := t.p.records)
  {
    hide Readable, Identify, Enroll, Live, RunsLinked, OldBridge;
    if d in s.a.candidate {
      EnrollFrame(s.p);
      RecordsAside(s.p, Complete(s, d, cut).0.p, c);
    }
  }

  lemma DeployTracked(s0: State, s: State, c: Component, d: Component, version: Version, cut: nat)
    requires Tracked(s0, s, c)
    ensures Tracked(s0, Deploy(s, d, version, cut).0, c)
  {
    hide Enroll, Readable, Complete, Identify;
    SeenTracked(s0, s, c);
    SeenSameAdmission(s);
    if Guarded(s, d) {
      var g := Seen(s);
      if g.a.changes[d] && CodeChangeAllowed(g, d) && version == g.a.candidate[d].version && cut > 0 {
        SwapTracked(s0, g, c, d);
        var written := Versioned(Swapped(g, d), d);
        var marked := written.(a := g.a.(pending := g.a.pending + {d}));
        if cut > 2 { CompleteTracked(s0, marked, c, d, cut - 3); }
      }
    }
  }

  lemma SwapTracked(s0: State, g: State, c: Component, d: Component)
    requires Tracked(s0, g, c) && d in g.a.candidate && d in g.a.changes && g.a.changes[d]
    ensures Tracked(s0, Swapped(g, d), c) && Tracked(s0, Versioned(Swapped(g, d), d), c)
    ensures var w := Versioned(Swapped(g, d), d); Tracked(s0, w.(a := g.a.(pending := g.a.pending + {d})), c)
  {
    hide Tracked;
    var t := Swapped(g, d);
    var w := Versioned(t, d);
    NewCodeTracked(s0, g, t, c, d);
    NewCodeTracked(s0, g, w, c, d);
    NewCodeTracked(s0, g, w.(a := g.a.(pending := g.a.pending + {d})), c, d);
  }

  /** Candidate code in a fixed tree, pending or not. */
  lemma NewCodeTracked(s0: State, g: State, t: State, c: Component, d: Component)
    requires Tracked(s0, g, c) && d in g.a.candidate && d in g.a.changes && g.a.changes[d]
    requires d in t.p.fixed && t.p.fixed[d] == g.a.candidate[d].digest
    requires t.p == g.p.(fixed := g.p.fixed[d := t.p.fixed[d]], versions := t.p.versions, staged := t.p.staged)
    requires t.p.staged == (if d == Bridge then g.p.staged else g.p.staged - {d})
    requires t.a == g.a.(pending := t.a.pending) && t.a.pending <= g.a.pending + {d}
    ensures Tracked(s0, t, c)
  {
    assert RunsLinked(t.p, c) == RunsLinked(g.p, c);
  }

  /** Writing a unit that does not newly select the link, with the right code where it selects fixed. */
  lemma UnitTracked(s0: State, s: State, c: Component, d: Component, unit: UnitFile, both: bool)
    requires Tracked(s0, s, c)
    requires d == c ==> (RunsLinked(WithUnit(s, c, unit, both).p, c) == RunsLinked(s.p, c)
                         || (!unit.linked && c in s.p.fixed && s.p.fixed[c] == s.a.candidate[c].digest))
    ensures Tracked(s0, WithUnit(s, d, unit, both), c)
  {
    var t := WithUnit(s, d, unit, both);
    assert d != c ==> RunsLinked(t.p, c) == RunsLinked(s.p, c);
  }

  lemma LoggedTracked(s0: State, s: State, c: Component, writes: seq<UnitWrite>)
    requires Tracked(s0, s, c)
    ensures Tracked(s0, s.(unitWrites := writes), c)
  {
  }

  lemma DeploymentTracked(s0: State, s: State, c: Component, deployment: Option<string>)
    requires Tracked(s0, s, c)
    ensures Tracked(s0, WithDeployment(s, deployment), c)
  {
    var t := WithDeployment(s, deployment);
    assert RunsLinked(t.p, c) == RunsLinked(s.p, c);
  }

  lemma RefreshTracked(s0: State, s: State, c: Component, deployment: Option<string>)
    requires Tracked(s0, s, c)
    ensures Tracked(s0, Refresh(s, deployment).0, c)
  {
    hide Enroll, Readable, RunsLinked, Live, Identify;
    SeenTracked(s0, s, c);
    SeenSameAdmission(s);
  }

  lemma PreserveTracked(s0: State, s: State, c: Component, d: Component, fallback: Option<UnitFile>, cut: nat)
    requires Tracked(s0, s, c) && Guarded(s, d) && s.a.incumbent[d].Some? && LinkUnitsLinked(s0.p)
    requires fallback.Some? ==> !fallback.value.linked
    ensures Tracked(s0, Preserve(s, d, fallback, cut).0, c)
  {
    hide Readable, Enroll;
    var unit := PreservedUnit(s, d, fallback);
    if unit.Some? && cut > 0 {
      var logged := if PreservedUnit(s, d, None).None?
        then s.(unitWrites := s.unitWrites + [UnitWrite(d, Digest(s.p, d))]) else s;
      LoggedTracked(s0, s, c, logged.unitWrites);
      assert d == c ==> Identify(s.p, c) == s.a.incumbent[c];
      UnitTracked(s0, logged, c, d, unit.value, cut != 1);
    }
  }

  /** Selecting the bundled unit selects either the pending code or what runs already. */
  lemma BundledTracked(s0: State, s: State, c: Component, d: Component, unit: UnitFile, both: bool)
    requires Tracked(s0, s, c) && Guarded(s, d) && s.a.changes[d] && HasCandidateCode(s, d) && !unit.linked
    requires s0.a.changes[c] ==> s0.a.incumbent[c].value.digest != s0.a.candidate[c].digest
    ensures Tracked(s0, WithUnit(s, d, unit, both), c)
  {
    hide Readable;
    if d == c {
      assert Identify(s.p, c) == s.a.incumbent[c];
      if RunsLinked(s.p, c) { assert c in s.a.pending; }
    }
    UnitTracked(s0, s, c, d, unit, both);
  }

  lemma EnsureUnitTracked(s0: State, s: State, c: Component, d: Component, unit: UnitFile, cut: nat)
    requires Tracked(s0, s, c) && !unit.linked && LinkUnitsLinked(s0.p)
    requires s0.a.changes[c] ==> s0.a.incumbent[c].value.digest != s0.a.candidate[c].digest
    ensures Tracked(s0, EnsureUnit(s, d, unit, cut).0, c)
  {
    hide Readable, Enroll, Identify, Tracked, Preserve, Complete, PreservedUnit;
    TrackedCandidate(s0, s, c);
    SeenTracked(s0, s, c);
    SeenSameAdmission(s);
    if Guarded(s, d) {
      var g := Seen(s);
      GuardedSeen(s, d);
      if Keeps(g, d) {
        PreserveTracked(s0, g, c, d, None, cut);
      } else if !g.a.changes[d] {
        if g.a.incumbent[d].Some? { PreserveTracked(s0, g, c, d, Some(unit), cut); }
      } else if HasCandidateCode(g, d) && cut > 0 {
        BundledTracked(s0, g, c, d, unit, cut != 1);
        var logged := g.(unitWrites := g.unitWrites + [UnitWrite(d, Digest(g.p, d))]);
        LoggedTracked(s0, WithUnit(g, d, unit, cut != 1), c, logged.unitWrites);
        if cut > 1 && d in g.a.pending { CompleteTracked(s0, WithUnit(logged, d, unit, true), c, d, cut - 2); }
      }
    }
  }

  lemma TrackedCandidate(s0: State, s: State, c: Component)
    requires Tracked(s0, s, c)
    ensures c in s0.a.incumbent && s0.a.incumbent[c].Some? && c in s0.a.candidate && c in s0.a.changes
    ensures s.a.candidate == s0.a.candidate && s.a.changes == s0.a.changes
  {
  }

  lemma EnsureConfigsTracked(s0: State, s: State, c: Component, unit: UnitFile, env: Option<string>, cut: nat,
      envCut: nat)
    requires Tracked(s0, s, c) && !unit.linked && LinkUnitsLinked(s0.p)
    requires s0.a.changes[c] ==> s0.a.incumbent[c].value.digest != s0.a.candidate[c].digest
    ensures Tracked(s0, EnsureConfigs(s, unit, env, cut, envCut).0, c)
  {
    hide Readable, Enroll, Identify, Tracked, Preserve, Complete, Refresh;
    TrackedCandidate(s0, s, c);
    SeenTracked(s0, s, c);
    SeenSameAdmission(s);
    if Guarded(s, Bridge) {
      var g := Seen(s);
      GuardedSeen(s, Bridge);
      var deployment := NewDeployment(g, env);
      if Keeps(g, Bridge) {
        PreserveConfiguredTracked(s0, g, c, None, deployment, cut, envCut);
      } else if HasCandidateCode(g, Bridge) {
        if g.a.changes[Bridge] {
          SelectConfiguredTracked(s0, g, c, unit, deployment, cut);
        } else if g.a.incumbent[Bridge].Some? {
          PreserveConfiguredTracked(s0, g, c, Some(unit), deployment, cut, envCut);
        }
      }
    }
  }

  lemma PreserveConfiguredTracked(s0: State, s: State, c: Component, fallback: Option<UnitFile>,
      deployment: Option<string>, cut: nat, envCut: nat)
    requires Tracked(s0, s, c) && Guarded(s, Bridge) && s.a.incumbent[Bridge].Some? && LinkUnitsLinked(s0.p)
    requires fallback.Some? ==> !fallback.value.linked
    ensures Tracked(s0, PreserveConfigured(s, fallback, deployment, cut, envCut).0, c)
  {
    hide Tracked, Preserve, Refresh, Guarded;
    GuardedIncumbent(s, Bridge);
    PreserveTracked(s0, s, c, Bridge, fallback, cut);
    var kept := Preserve(s, Bridge, fallback, cut).0;
    DeploymentTracked(s0, kept, c, deployment);
    RefreshTracked(s0, WithDeployment(kept, deployment), c, deployment);
  }

  lemma GuardedIncumbent(s: State, c: Component)
    requires Guarded(s, c)
    ensures c in s.a.incumbent && c in s.a.candidate && c in s.a.changes
  {
  }

  lemma SelectConfiguredTracked(s0: State, s: State, c: Component, unit: UnitFile, deployment: Option<string>, cut: nat)
    requires Tracked(s0, s, c) && Guarded(s, Bridge) && s.a.changes[Bridge] && HasCandidateCode(s, Bridge)
             && !unit.linked
    requires s0.a.changes[c] ==> s0.a.incumbent[c].value.digest != s0.a.candidate[c].digest
    ensures Tracked(s0, SelectConfigured(s, unit, deployment, cut).0, c)
  {
    hide Tracked, Refresh, Complete, Readable, Same;
    if cut > 0 {
      var log := s.unitWrites + [UnitWrite(Bridge, Digest(s.p, Bridge))];
      var logged := s.(unitWrites := log);
      BundledTracked(s0, s, c, Bridge, unit, false);
      BundledTracked(s0, s, c, Bridge, unit, true);
      LoggedTracked(s0, WithUnit(s, Bridge, unit, false), c, log);
      LoggedTracked(s0, WithUnit(s, Bridge, unit, true), c, log);
      DeploymentTracked(s0, WithUnit(logged, Bridge, unit, false), c, deployment);
      DeploymentTracked(s0, WithUnit(logged, Bridge, unit, true), c, deployment);
      var written := WithDeployment(WithUnit(logged, Bridge, unit, true), deployment);
      RefreshTracked(s0, written, c, deployment);
      if cut > 3 {
        CompleteTracked(s0, written, c, Bridge, cut - 4);
        RefreshTracked(s0, Complete(written, Bridge, cut - 4).0, c, deployment);
      }
    }
  }

  lemma {:induction false} WriteAllTracked(s0: State, s: State, c: Component, calls: seq<Call>)
    requires Tracked(s0, s, c) && BundledUnitsFixed(calls) && LinkUnitsLinked(s0.p)
    requires s0.a.changes[c] ==> s0.a.incumbent[c].value.digest != s0.a.candidate[c].digest
    ensures Tracked(s0, WriteAll(s, calls), c)
    decreases |calls|
  {
    hide Tracked, Deploy, EnsureUnit, EnsureConfigs, LinkUnitsLinked;
    TrackedCandidate(s0, s, c);
    if calls != [] {
      match calls[0] {
        case CallDeploy(d, version, cut) => DeployTracked(s0, s, c, d, version, cut);
        case CallUnit(d, unit, cut) => EnsureUnitTracked(s0, s, c, d, unit, cut);
        case CallConfigs(unit, env, cut, envCut) => EnsureConfigsTracked(s0, s, c, unit, env, cut, envCut);
      }
      WriteAllTracked(s0, Write(s, calls[0]).0, c, calls[1..]);
    }
  }

  // ----- sessions and histories -----

  /** A firmware update wipes the live units, and may or may not spare the environment file. */
  datatype Session =
    | Writers(plan: Plan, calls: seq<Call>)
    | Activation(plan: Plan, deployment: string, units: map<Component, UnitFile>)
    | Wipe(correlation: Option<string>)
    | Visit

  /** A completed activation: the link names the staged release, its units replace the live ones and its
      version the bridge's version file, the staged copies stay, and every selected component's identity
      is published. */
  function Activated(s: State, bundle: map<Component, Identity>, deployment: string,
      units: map<Component, UnitFile>): PanelCode
    requires Bridge in bundle
  {
    s.p.(link := Some(map c | c in bundle :: Code(Some(bundle[c].version), bundle[c].digest)),
         versions := s.p.versions[Bridge := bundle[Bridge].version],
         linkUnits := units, live := units, deployment := Some(deployment),
         records := s.p.records + map c | c in s.a.candidate ::
           Identity(s.a.candidate[c].version, s.a.candidate[c].ordinal, s.a.candidate[c].digest, Some(deployment),
             Linked))
  }

  predicate ActivationRuns(p: PanelCode, plan: Plan, units: map<Component, UnitFile>) {
    && Admissible(p, plan)
    && (forall c :: c in plan.Chosen() ==> AdmitIdentity(Identify(p, c), plan.bundle[c]) != Unchanged)
    && (forall c :: c in plan.Chosen() <==> c in units)
    && (forall c :: c in units ==> units[c].linked)
    && (forall c: Component :: c in plan.bundle)
  }

  function After(p: PanelCode, session: Session): PanelCode {
    match session
    case Writers(plan, calls) => if Admissible(p, plan) then WriteAll(Begin(p, plan), calls).p else Noticed(p)
    case Activation(plan, deployment, units) =>
      if ActivationRuns(p, plan, units) then Activated(Begin(p, plan), plan.bundle, deployment, units) else Noticed(p)
    case Wipe(correlation) => Wiped(p, correlation)
    case Visit => Noticed(p)
  }

  function Wiped(p: PanelCode, correlation: Option<string>): PanelCode { p.(live := map[], deployment := correlation) }

  function Noticed(p: PanelCode): PanelCode { if Readable(p) then Enroll(p) else p }

  function History(p: PanelCode, sessions: seq<Session>, n: nat): PanelCode
    requires n <= |sessions|
  {
    if n == 0 then p else After(History(p, sessions, n - 1), sessions[n - 1])
  }

  predicate Deploys(session: Session) { session.Writers? || session.Activation? }

  /** The session was approved by an override no session had used before. */
  predicate FreshlyOverridden(p: PanelCode, session: Session) {
    && Deploys(session) && session.plan.override.Some? && Admissible(p, session.plan)
    && session.plan.Transaction() !in p.consumed
  }

  /** Sessions of the code as it ships: fixed-path bundled units, linked release units. */
  predicate Ships(session: Session) {
    match session
    case Writers(plan, calls) => BundledUnitsFixed(calls)
    case Activation(plan, deployment, units) => forall c :: c in units ==> units[c].linked
    case Wipe(correlation) => true
    case Visit => true
  }

  /** Nothing but the session's own deploys decides what the component runs: an activation does not leave
      it out, a wipe selects no other unit, and no swap takes away the only unit it has. */
  predicate Steady(p: PanelCode, session: Session, c: Component) {
    match session
    case Writers(plan, calls) => !StagedOnly(p, c)
    case Activation(plan, deployment, units) => c in plan.Chosen()
    case Wipe(correlation) => RunsLinked(Wiped(p, correlation), c) == RunsLinked(p, c)
    case Visit => true
  }

  // ----- what a component reads as -----

  /** Code, label, place and ordinal of a component read the same. */
  predicate IdentityKept(p: PanelCode, q: PanelCode, c: Component) {
    && RunsLinked(q, c) == RunsLinked(p, c) && Live(q, c) == Live(p, c)
    && (Live(p, c).Some? ==> KnownOrdinal(q, c, Live(p, c).value.digest) == KnownOrdinal(p, c, Live(p, c).value.digest))
  }

  predicate Known(p: PanelCode, c: Component) { Identify(p, c).Some? && Identify(p, c).value.ordinal.Some? }

  lemma SeenKept(s: State, c: Component)
    ensures IdentityKept(s.p, Seen(s).p, c)
  {
    EnrollReads(s.p, c);
    hide Readable;
  }

  /** Another component's code, units or record, and the deployment, are not part of an identity. */
  lemma OthersKept(p: PanelCode, q: PanelCode, c: Component)
    requires q.link == p.link
    requires (c in q.live <==> c in p.live) && (c in p.live ==> q.live[c] == p.live[c])
    requires (c in q.staged <==> c in p.staged) && (c in p.staged ==> q.staged[c] == p.staged[c])
    requires (c in q.fixed <==> c in p.fixed) && (c in p.fixed ==> q.fixed[c] == p.fixed[c])
    requires (c in q.versions <==> c in p.versions) && (c in p.versions ==> q.versions[c] == p.versions[c])
    requires (c in q.records <==> c in p.records) && (c in p.records ==> q.records[c] == p.records[c])
    ensures IdentityKept(p, q, c)
  {
  }

  lemma KeptTrans(p: PanelCode, q: PanelCode, r: PanelCode, c: Component)
    requires IdentityKept(p, q, c) && IdentityKept(q, r, c)
    ensures IdentityKept(p, r, c)
  {
    hide RunsLinked;
  }

  lemma CompleteKept(s: State, d: Component, cut: nat, c: Component)
    requires d in s.a.candidate && d != c
    ensures IdentityKept(s.p, Complete(s, d, cut).0.p, c)
  {
    hide Readable, Enroll, Identify, IdentityKept;
    SeenKept(s, c);
    var t := Complete(s, d, cut).0;
    OthersKept(Seen(s).p, t.p, c);
    KeptTrans(s.p, Seen(s).p, t.p, c);
  }

  /** Installed code whose label no pre-ordinal upgrade can start from. */
  predicate Labelled(p: PanelCode, c: Component) { Live(p, c).Some? && !OldLabel(Label(p, c)) }

  /** The transaction brings a new label, and what is pending carries it, or none that could be old. */
  predicate NewLabel(s: State, c: Component) {
    && c in s.a.candidate && c in s.a.changes && (s.a.changes[c] ==> !OldLabel(s.a.candidate[c].version))
    && (c in s.a.pending ==>
          c in s.p.fixed
          && if c in s.p.versions then s.p.versions[c] == s.a.candidate[c].version else c != Bridge && !OldBridge(s.p))
  }

  /** A deploy of this component, cut after the code and before the version file, while the bridge runs
      its fixed tree under an old version. */
  predicate SwapCut(s: State, call: Call, c: Component) {
    call.CallDeploy? && call.component == c && call.cut == 1 && Write(s, call).1.Torn? && OldBridge(s.p)
  }

  lemma DeployOthers(s: State, d: Component, version: Version, cut: nat, c: Component)
    requires d != c
    ensures IdentityKept(s.p, Deploy(s, d, version, cut).0.p, c)
  {
    hide Readable, Enroll, IdentityKept, Complete, Identify;
    SeenKept(s, c);
    if Guarded(s, d) && cut > 0 {
      var g := Seen(s);
      var swapped := Swapped(g, d);
      var written := Versioned(swapped, d);
      var marked := written.(a := g.a.(pending := g.a.pending + {d}));
      OthersKept(g.p, swapped.p, c);
      OthersKept(g.p, written.p, c);
      KeptTrans(s.p, g.p, swapped.p, c);
      KeptTrans(s.p, g.p, written.p, c);
      if cut > 2 {
        CompleteKept(marked, d, cut - 3, c);
        KeptTrans(s.p, marked.p, Complete(marked, d, cut - 3).0.p, c);
      }
    }
  }

  lemma GuardedPlace(s: State, c: Component)
    requires Guarded(s, c) && s.a.incumbent[c].Some?
    ensures s.a.incumbent[c].value.place.Fixed? <==> !RunsLinked(s.p, c)
  {
    hide Readable;
    assert Identify(s.p, c) == s.a.incumbent[c];
  }

  /** New fixed code is shown where its unit stays, and under no old label once its version is written,
      or while the bridge is not old. */
  lemma SwapLabelled(g: State, c: Component)
    requires !RunsLinked(g.p, c) && !StagedOnly(g.p, c) && c in g.a.candidate && !OldLabel(g.a.candidate[c].version)
    requires c == Bridge ==> c in g.p.fixed
    ensures !OldBridge(g.p) ==> Labelled(Swapped(g, c).p, c)
    ensures Labelled(Versioned(Swapped(g, c), c).p, c)
  {
    assert !RunsLinked(Swapped(g, c).p, c) && !RunsLinked(Versioned(Swapped(g, c), c).p, c);
    if c != Bridge { assert RunsLinked(Swapped(g, c).p, Bridge) == RunsLinked(g.p, Bridge); }
  }

  lemma DeployLabels(s: State, c: Component, version: Version, cut: nat)
    requires NewLabel(s, c) && (Guarded(s, c) ==> s.a.incumbent[c].Some?) && Live(s.p, c).Some? && !StagedOnly(s.p, c)
    requires !SwapCut(s, CallDeploy(c, version, cut), c)
    ensures var t := Deploy(s, c, version, cut).0; IdentityKept(s.p, t.p, c) || Labelled(t.p, c)
  {
    hide Readable, Enroll, IdentityKept, Labelled, Complete, Identify, KnownOrdinal, Label, OldBridge, OldLabel, Same;
    SeenKept(s, c);
    SeenSameAdmission(s);
    var g := Seen(s);
    var t := Deploy(s, c, version, cut).0;
    if Guarded(s, c) && g.a.changes[c] && CodeChangeAllowed(g, c) && version == g.a.candidate[c].version && cut > 0 {
      SeenReads(s, c);
      GuardedPlace(s, c);
      var written := Versioned(Swapped(g, c), c);
      var marked := written.(a := g.a.(pending := g.a.pending + {c}));
      if RunsLinked(s.p, c) {
        LinkedKept(s, g, t, c);
        KeptTrans(s.p, g.p, t.p, c);
      } else {
        SwapLabelled(g, c);
        if cut > 2 {
          CompleteReads(marked, c, cut - 3, c);
          SameLabel(marked.p, t.p, c);
        }
      }
    }
  }

  lemma SeenReads(s: State, c: Component)
    ensures RunsLinked(Seen(s).p, c) == RunsLinked(s.p, c) && Seen(s).p == s.p.(records := Seen(s).p.records)
    ensures Live(Seen(s).p, c) == Live(s.p, c) && OldBridge(Seen(s).p) == OldBridge(s.p)
  {
    EnrollReads(s.p, c);
    hide Readable;
  }

  lemma SameLabel(p: PanelCode, q: PanelCode, c: Component)
    requires Live(q, c) == Live(p, c) && RunsLinked(q, c) == RunsLinked(p, c)
    requires c == Bridge || (OldBridge(q) ==> OldBridge(p))
    ensures Labelled(p, c) ==> Labelled(q, c)
  {
  }

  /** New fixed code does not show while the link is selected. */
  lemma LinkedKept(s: State, g: State, t: State, c: Component)
    requires Guarded(s, c) && g == Seen(s) && c in g.a.incumbent && g.a.incumbent[c].Some?
             && !g.a.incumbent[c].value.place.Fixed?
    requires t.p == g.p.(fixed := t.p.fixed, versions := t.p.versions, staged := t.p.staged)
    requires t.p.staged == (if c == Bridge then g.p.staged else g.p.staged - {c})
    ensures IdentityKept(g.p, t.p, c)
  {
    GuardedSeen(s, c);
    assert Identify(g.p, c) == g.a.incumbent[c];
    assert RunsLinked(t.p, c) == RunsLinked(g.p, c);
    hide Readable, Enroll;
  }

  lemma UnitKept(s: State, c: Component, d: Component, unit: UnitFile, both: bool)
    requires d == c ==> RunsLinked(WithUnit(s, c, unit, both).p, c) == RunsLinked(s.p, c)
    ensures IdentityKept(s.p, WithUnit(s, d, unit, both).p, c)
  {
    var t := WithUnit(s, d, unit, both);
    assert RunsLinked(t.p, c) == RunsLinked(s.p, c);
  }

  lemma PreserveKept(s: State, c: Component, d: Component, fallback: Option<UnitFile>, cut: nat)
    requires Guarded(s, d) && s.a.incumbent[d].Some? && LinkUnitsLinked(s.p)
    requires fallback.Some? ==> !fallback.value.linked
    ensures IdentityKept(s.p, Preserve(s, d, fallback, cut).0.p, c)
  {
    hide Readable, IdentityKept;
    var unit := PreservedUnit(s, d, fallback);
    assert Identify(s.p, d) == s.a.incumbent[d];
    if unit.Some? && cut > 0 {
      UnitKept(s, c, d, unit.value, cut != 1);
    } else {
      OthersKept(s.p, s.p, c);
    }
  }

  lemma PreserveOthers(s: State, d: Component, fallback: Option<UnitFile>, cut: nat, c: Component)
    requires d != c && d in s.a.incumbent && s.a.incumbent[d].Some?
    ensures IdentityKept(s.p, Preserve(s, d, fallback, cut).0.p, c)
  {
    hide IdentityKept;
    var unit := PreservedUnit(s, d, fallback);
    OthersKept(s.p, s.p, c);
    if unit.Some? { UnitKept(s, c, d, unit.value, cut != 1); }
  }

  lemma SelectBundledOthers(s: State, d: Component, unit: UnitFile, cut: nat, c: Component)
    requires d != c && d in s.a.candidate
    ensures IdentityKept(s.p, SelectBundled(s, d, unit, cut).0.p, c)
  {
    hide IdentityKept, Complete, Digest;
    var logged := s.(unitWrites := s.unitWrites + [UnitWrite(d, Digest(s.p, d))]);
    OthersKept(s.p, s.p, c);
    UnitKept(logged, c, d, unit, cut != 1);
    if cut > 1 {
      var written := WithUnit(logged, d, unit, true);
      CompleteKept(written, d, cut - 2, c);
      KeptTrans(s.p, written.p, Complete(written, d, cut - 2).0.p, c);
    }
  }

  /** A unit that selects pending code shows that code's label. */
  lemma UnitLabels(s: State, c: Component, unit: UnitFile, both: bool)
    requires !unit.linked && NewLabel(s, c) && s.a.changes[c] && c in s.a.pending
    ensures Labelled(WithUnit(s, c, unit, both).p, c)
  {
    var t := WithUnit(s, c, unit, both);
    assert !RunsLinked(t.p, c);
    if c != Bridge { assert RunsLinked(t.p, Bridge) == RunsLinked(s.p, Bridge); }
  }

  lemma SelectBundledLabels(s: State, c: Component, unit: UnitFile, cut: nat)
    requires NewLabel(s, c) && s.a.changes[c] && !unit.linked && (c in s.a.pending || !RunsLinked(s.p, c))
    ensures var t := SelectBundled(s, c, unit, cut).0; IdentityKept(s.p, t.p, c) || Labelled(t.p, c)
  {
    hide Readable, Enroll, IdentityKept, Labelled, Complete, Digest;
    OthersKept(s.p, s.p, c);
    if cut > 0 {
      var logged := s.(unitWrites := s.unitWrites + [UnitWrite(c, Digest(s.p, c))]);
      var written := WithUnit(logged, c, unit, cut != 1);
      if c in s.a.pending {
        UnitLabels(logged, c, unit, cut != 1);
        if cut > 1 {
          CompleteReads(written, c, cut - 2, c);
          SameLabel(written.p, Complete(written, c, cut - 2).0.p, c);
        }
      } else {
        UnitKept(logged, c, c, unit, cut != 1);
      }
    }
  }

  /** A component that runs linked code and has candidate code to select still has it pending. */
  lemma PendingOrFixed(s0: State, s: State, c: Component)
    requires Tracked(s0, s, c) && Guarded(s, c) && s.a.changes[c] && HasCandidateCode(s, c)
    requires s0.a.changes[c] ==> s0.a.incumbent[c].value.digest != s0.a.candidate[c].digest
    ensures c in s.a.pending || !RunsLinked(s.p, c)
  {
    hide Readable;
    assert Identify(s.p, c) == s.a.incumbent[c];
  }

  lemma EnsureUnitOthers(s: State, d: Component, unit: UnitFile, cut: nat, c: Component)
    requires d != c
    ensures IdentityKept(s.p, EnsureUnit(s, d, unit, cut).0.p, c)
  {
    hide Readable, Enroll, IdentityKept, Preserve, SelectBundled, Identify;
    SeenKept(s, c);
    SeenSameAdmission(s);
    var g := Seen(s);
    var t := EnsureUnit(s, d, unit, cut).0;
    if Guarded(s, d) {
      OthersKept(g.p, g.p, c);
      if Keeps(g, d) {
        PreserveOthers(g, d, None, cut, c);
      } else if !g.a.changes[d] {
        if g.a.incumbent[d].Some? { PreserveOthers(g, d, Some(unit), cut, c); }
      } else if HasCandidateCode(g, d) {
        SelectBundledOthers(g, d, unit, cut, c);
      }
      KeptTrans(s.p, g.p, t.p, c);
    }
  }

  lemma EnsureUnitLabels(s0: State, s: State, c: Component, unit: UnitFile, cut: nat)
    requires Tracked(s0, s, c) && NewLabel(s, c) && !unit.linked && LinkUnitsLinked(s0.p)
    requires s0.a.changes[c] ==> s0.a.incumbent[c].value.digest != s0.a.candidate[c].digest
    ensures var t := EnsureUnit(s, c, unit, cut).0; IdentityKept(s.p, t.p, c) || Labelled(t.p, c)
  {
    hide Readable, Enroll, IdentityKept, Labelled, Preserve, SelectBundled, Tracked, Identify, LinkUnitsLinked;
    TrackedLink(s0, s, c);
    TrackedCandidate(s0, s, c);
    SeenTracked(s0, s, c);
    SeenKept(s, c);
    SeenReads(s, c);
    SeenSameAdmission(s);
    var g := Seen(s);
    var t := EnsureUnit(s, c, unit, cut).0;
    if Guarded(s, c) {
      GuardedSeen(s, c);
      TrackedLink(s0, g, c);
      if Keeps(g, c) {
        PreserveKept(g, c, c, None, cut);
        KeptTrans(s.p, g.p, t.p, c);
      } else if !g.a.changes[c] {
        if g.a.incumbent[c].Some? {
          PreserveKept(g, c, c, Some(unit), cut);
          KeptTrans(s.p, g.p, t.p, c);
        }
      } else if HasCandidateCode(g, c) {
        PendingOrFixed(s0, g, c);
        SelectBundledLabels(g, c, unit, cut);
        if IdentityKept(g.p, t.p, c) { KeptTrans(s.p, g.p, t.p, c); }
      }
    }
  }

  lemma TrackedLink(s0: State, s: State, c: Component)
    requires Tracked(s0, s, c) && LinkUnitsLinked(s0.p)
    ensures LinkUnitsLinked(s.p)
  {
  }

  lemma RefreshKept(s: State, deployment: Option<string>, c: Component)
    ensures IdentityKept(s.p, Refresh(s, deployment).0.p, c)
  {
    hide Readable, Enroll, Identify, IdentityKept;
    SeenKept(s, c);
    OthersKept(s.p, s.p, c);
  }

  lemma RefreshAfter(p: PanelCode, s: State, deployment: Option<string>, c: Component)
    requires IdentityKept(p, s.p, c)
    ensures IdentityKept(p, Refresh(s, deployment).0.p, c)
  {
    hide IdentityKept, Refresh;
    RefreshKept(s, deployment, c);
    KeptTrans(p, s.p, Refresh(s, deployment).0.p, c);
  }

  lemma DeploymentAfter(p: PanelCode, s: State, deployment: Option<string>, c: Component)
    requires IdentityKept(p, s.p, c)
    ensures IdentityKept(p, WithDeployment(s, deployment).p, c)
  {
    hide IdentityKept;
    OthersKept(s.p, WithDeployment(s, deployment).p, c);
    KeptTrans(p, s.p, WithDeployment(s, deployment).p, c);
  }

  lemma SelectConfiguredOthers(s: State, unit: UnitFile, deployment: Option<string>, cut: nat, c: Component)
    requires Bridge != c && Bridge in s.a.candidate
    ensures IdentityKept(s.p, SelectConfigured(s, unit, deployment, cut).0.p, c)
  {
    hide IdentityKept, Complete, Refresh, Digest;
    var logged := s.(unitWrites := s.unitWrites + [UnitWrite(Bridge, Digest(s.p, Bridge))]);
    var half := WithUnit(logged, Bridge, unit, false);
    var full := WithUnit(logged, Bridge, unit, true);
    OthersKept(s.p, s.p, c);
    UnitKept(logged, c, Bridge, unit, false);
    UnitKept(logged, c, Bridge, unit, true);
    DeploymentAfter(s.p, half, deployment, c);
    DeploymentAfter(s.p, full, deployment, c);
    var written := WithDeployment(full, deployment);
    RefreshAfter(s.p, written, deployment, c);
    if cut > 3 {
      var completed := Complete(written, Bridge, cut - 4).0;
      CompleteKept(written, Bridge, cut - 4, c);
      KeptTrans(s.p, written.p, completed.p, c);
      RefreshAfter(s.p, completed, deployment, c);
    }
  }

  lemma SelectConfiguredLabels(s: State, unit: UnitFile, deployment: Option<string>, cut: nat)
    requires NewLabel(s, Bridge) && s.a.changes[Bridge] && !unit.linked
             && (Bridge in s.a.pending || !RunsLinked(s.p, Bridge))
    ensures var t := SelectConfigured(s, unit, deployment, cut).0;
            IdentityKept(s.p, t.p, Bridge) || Labelled(t.p, Bridge)
  {
    hide Readable, Enroll, IdentityKept, Labelled, Complete, Refresh, Digest;
    OthersKept(s.p, s.p, Bridge);
    if cut > 0 {
      var logged := s.(unitWrites := s.unitWrites + [UnitWrite(Bridge, Digest(s.p, Bridge))]);
      var both := cut > 2;
      var selected := WithUnit(logged, Bridge, unit, both);
      var written := WithDeployment(selected, deployment);
      OthersKept(selected.p, written.p, Bridge);
      if Bridge in s.a.pending {
        UnitLabels(logged, Bridge, unit, both);
        LabelAfter(selected.p, written.p, Bridge);
        if cut > 3 {
          var completed := Complete(written, Bridge, cut - 4).0;
          CompleteReads(written, Bridge, cut - 4, Bridge);
          SameLabel(written.p, completed.p, Bridge);
          RefreshKept(completed, deployment, Bridge);
          LabelAfter(completed.p, Refresh(completed, deployment).0.p, Bridge);
        }
      } else {
        UnitKept(logged, Bridge, Bridge, unit, both);
        KeptTrans(s.p, selected.p, written.p, Bridge);
        RefreshAfter(s.p, written, deployment, Bridge);
      }
    }
  }

  lemma LabelAfter(p: PanelCode, q: PanelCode, c: Component)
    requires IdentityKept(p, q, c) && Labelled(p, c)
    requires c == Bridge || (OldBridge(q) ==> OldBridge(p))
    ensures Labelled(q, c)
  {
  }

  lemma PreserveConfiguredKept(s: State, c: Component, fallback: Option<UnitFile>, deployment: Option<string>, cut: nat,
      envCut: nat)
    requires Bridge in s.a.incumbent && s.a.incumbent[Bridge].Some?
    requires c != Bridge || (Guarded(s, Bridge) && LinkUnitsLinked(s.p))
    requires fallback.Some? ==> !fallback.value.linked
    ensures IdentityKept(s.p, PreserveConfigured(s, fallback, deployment, cut, envCut).0.p, c)
  {
    hide Readable, Enroll, IdentityKept, Preserve, Refresh, Identify;
    if c == Bridge { PreserveKept(s, c, Bridge, fallback, cut); } else { PreserveOthers(s, Bridge, fallback, cut, c); }
    var kept := Preserve(s, Bridge, fallback, cut).0;
    DeploymentAfter(s.p, kept, deployment, c);
    RefreshAfter(s.p, WithDeployment(kept, deployment), deployment, c);
  }

  lemma EnsureConfigsOthers(s: State, unit: UnitFile, env: Option<string>, cut: nat, envCut: nat, c: Component)
    requires Bridge != c && !unit.linked
    ensures IdentityKept(s.p, EnsureConfigs(s, unit, env, cut, envCut).0.p, c)
  {
    hide Readable, Enroll, IdentityKept, PreserveConfigured, SelectConfigured, Identify;
    SeenKept(s, c);
    SeenSameAdmission(s);
    var g := Seen(s);
    var t := EnsureConfigs(s, unit, env, cut, envCut).0;
    if Guarded(s, Bridge) {
      OthersKept(g.p, g.p, c);
      var deployment := NewDeployment(g, env);
      if g.a.incumbent[Bridge].Some? {
        PreserveConfiguredKept(g, c, None, deployment, cut, envCut);
        PreserveConfiguredKept(g, c, Some(unit), deployment, cut, envCut);
      }
      SelectConfiguredOthers(g, unit, deployment, cut, c);
      KeptTrans(s.p, g.p, t.p, c);
    }
  }

  lemma EnsureConfigsLabels(s0: State, s: State, unit: UnitFile, env: Option<string>, cut: nat, envCut: nat)
    requires Tracked(s0, s, Bridge) && NewLabel(s, Bridge) && !unit.linked && LinkUnitsLinked(s0.p)
    requires s0.a.changes[Bridge] ==> s0.a.incumbent[Bridge].value.digest != s0.a.candidate[Bridge].digest
    ensures var t := EnsureConfigs(s, unit, env, cut, envCut).0; IdentityKept(s.p, t.p, Bridge) || Labelled(t.p, Bridge)
  {
    hide Readable, Enroll, IdentityKept, Labelled, PreserveConfigured, SelectConfigured, Tracked, Identify,
         LinkUnitsLinked;
    TrackedLink(s0, s, Bridge);
    TrackedCandidate(s0, s, Bridge);
    SeenTracked(s0, s, Bridge);
    SeenKept(s, Bridge);
    SeenReads(s, Bridge);
    SeenSameAdmission(s);
    var g := Seen(s);
    var t := EnsureConfigs(s, unit, env, cut, envCut).0;
    if Guarded(s, Bridge) {
      GuardedSeen(s, Bridge);
      TrackedLink(s0, g, Bridge);
      var deployment := NewDeployment(g, env);
      if Keeps(g, Bridge) {
        PreserveConfiguredKept(g, Bridge, None, deployment, cut, envCut);
        KeptTrans(s.p, g.p, t.p, Bridge);
      } else if HasCandidateCode(g, Bridge) {
        if g.a.changes[Bridge] {
          PendingOrFixed(s0, g, Bridge);
          SelectConfiguredLabels(g, unit, deployment, cut);
          if IdentityKept(g.p, t.p, Bridge) { KeptTrans(s.p, g.p, t.p, Bridge); }
        } else if g.a.incumbent[Bridge].Some? {
          PreserveConfiguredKept(g, Bridge, Some(unit), deployment, cut, envCut);
          KeptTrans(s.p, g.p, t.p, Bridge);
        }
      }
    }
  }

  // ----- what no writer changes -----

  predicate Outside(s: State, t: State) {
    && t.a.changes == s.a.changes && t.a.candidate == s.a.candidate
    && t.p.consumed == s.p.consumed && t.p.link == s.p.link && t.p.linkUnits == s.p.linkUnits
  }

  lemma CompleteOutside(s: State, d: Component, cut: nat)
    requires d in s.a.candidate
    ensures Outside(s, Complete(s, d, cut).0)
  {
    hide Readable, Identify;
  }

  lemma RefreshOutside(s: State, deployment: Option<string>)
    ensures Outside(s, Refresh(s, deployment).0)
  {
    hide Readable, Identify;
  }

  lemma DeployOutside(s: State, d: Component, version: Version, cut: nat)
    ensures Outside(s, Deploy(s, d, version, cut).0)
  {
    hide Readable, Identify, Complete;
    if Guarded(s, d) && cut > 2 {
      var g := Seen(s);
      var written := Versioned(Swapped(g, d), d);
      CompleteOutside(written.(a := g.a.(pending := g.a.pending + {d})), d, cut - 3);
    }
  }

  lemma SelectBundledOutside(s: State, d: Component, unit: UnitFile, cut: nat)
    requires d in s.a.candidate
    ensures Outside(s, SelectBundled(s, d, unit, cut).0)
  {
    hide Complete, Digest;
    if cut > 1 {
      CompleteOutside(WithUnit(s.(unitWrites := s.unitWrites + [UnitWrite(d, Digest(s.p, d))]), d, unit, true), d,
        cut - 2);
    }
  }

  lemma EnsureUnitOutside(s: State, d: Component, unit: UnitFile, cut: nat)
    ensures Outside(s, EnsureUnit(s, d, unit, cut).0)
  {
    hide Readable, Identify, SelectBundled, PreservedUnit, Digest;
    if Guarded(s, d) { SelectBundledOutside(Seen(s), d, unit, cut); }
  }

  lemma OutsideTrans(s: State, t: State, u: State)
    requires Outside(s, t) && Outside(t, u)
    ensures Outside(s, u)
  {
  }

  lemma SelectConfiguredOutside(s: State, unit: UnitFile, deployment: Option<string>, cut: nat)
    requires Bridge in s.a.candidate
    ensures Outside(s, SelectConfigured(s, unit, deployment, cut).0)
  {
    hide Complete, Refresh, Digest, Outside;
    var logged := s.(unitWrites := s.unitWrites + [UnitWrite(Bridge, Digest(s.p, Bridge))]);
    WrittenOutside(s, logged, unit, deployment);
    var written := WithDeployment(WithUnit(logged, Bridge, unit, true), deployment);
    RefreshOutside(written, deployment);
    OutsideTrans(s, written, Refresh(written, deployment).0);
    if cut > 3 {
      var completed := Complete(written, Bridge, cut - 4).0;
      CompleteOutside(written, Bridge, cut - 4);
      OutsideTrans(s, written, completed);
      RefreshOutside(completed, deployment);
      OutsideTrans(s, completed, Refresh(completed, deployment).0);
    }
  }

  lemma WrittenOutside(s: State, logged: State, unit: UnitFile, deployment: Option<string>)
    requires logged == s.(unitWrites := logged.unitWrites) && Bridge in s.a.candidate
    ensures Outside(s, s) && Outside(s, WithUnit(logged, Bridge, unit, false))
            && Outside(s, WithDeployment(WithUnit(logged, Bridge, unit, false), deployment))
    ensures Outside(s, WithDeployment(WithUnit(logged, Bridge, unit, true), deployment))
    ensures WithDeployment(WithUnit(logged, Bridge, unit, true), deployment).a == s.a
  {
  }

  lemma PreserveConfiguredOutside(s: State, fallback: Option<UnitFile>, deployment: Option<string>, cut: nat,
      envCut: nat)
    requires Bridge in s.a.incumbent && s.a.incumbent[Bridge].Some?
    ensures Outside(s, PreserveConfigured(s, fallback, deployment, cut, envCut).0)
  {
    hide Refresh, Digest, PreservedUnit;
    RefreshOutside(WithDeployment(Preserve(s, Bridge, fallback, cut).0, deployment), deployment);
  }

  lemma EnsureConfigsOutside(s: State, unit: UnitFile, env: Option<string>, cut: nat, envCut: nat)
    ensures Outside(s, EnsureConfigs(s, unit, env, cut, envCut).0)
  {
    hide Readable, Identify, SelectConfigured, PreserveConfigured;
    if Guarded(s, Bridge) {
      var g := Seen(s);
      var deployment := NewDeployment(g, env);
      SelectConfiguredOutside(g, unit, deployment, cut);
      if g.a.incumbent[Bridge].Some? {
        PreserveConfiguredOutside(g, None, deployment, cut, envCut);
        PreserveConfiguredOutside(g, Some(unit), deployment, cut, envCut);
      }
    }
  }

  lemma WriteOutside(s: State, call: Call)
    ensures Outside(s, Write(s, call).0)
  {
    hide Deploy, EnsureUnit, EnsureConfigs;
    match call
    case CallDeploy(d, version, cut) => DeployOutside(s, d, version, cut);
    case CallUnit(d, unit, cut) => EnsureUnitOutside(s, d, unit, cut);
    case CallConfigs(unit, env, cut, envCut) => EnsureConfigsOutside(s, unit, env, cut, envCut);
  }

  lemma {:induction false} WriteAllOutside(s: State, calls: seq<Call>)
    ensures Outside(s, WriteAll(s, calls))
    decreases |calls|
  {
    hide Write;
    if calls != [] {
      WriteOutside(s, calls[0]);
      WriteAllOutside(Write(s, calls[0]).0, calls[1..]);
    }
  }

  /** A component the transaction does not cover reads the same after any call. */
  lemma UncoveredKept(s: State, call: Call, c: Component)
    requires c !in s.a.changes && BundledUnitFixed(call)
    ensures IdentityKept(s.p, Write(s, call).0.p, c)
  {
    hide Readable, IdentityKept, Complete, Preserve, SelectBundled, PreserveConfigured, SelectConfigured;
    SeenKept(s, c);
    match call
    case CallDeploy(d, version, cut) => if d != c { DeployOthers(s, d, version, cut, c); }
    case CallUnit(d, unit, cut) => if d != c { EnsureUnitOthers(s, d, unit, cut, c); }
    case CallConfigs(unit, env, cut, envCut) => if Bridge != c { EnsureConfigsOthers(s, unit, env, cut, envCut, c); }
  }

  lemma {:induction false} WriteAllUncovered(s: State, calls: seq<Call>, c: Component)
    requires c !in s.a.changes && BundledUnitsFixed(calls)
    ensures IdentityKept(s.p, WriteAll(s, calls).p, c)
    decreases |calls|
  {
    hide Write, IdentityKept;
    OthersKept(s.p, s.p, c);
    if calls != [] {
      WriteOutside(s, calls[0]);
      UncoveredKept(s, calls[0], c);
      var t := Write(s, calls[0]).0;
      WriteAllUncovered(t, calls[1..], c);
      KeptTrans(s.p, t.p, WriteAll(t, calls[1..]).p, c);
    }
  }

  // ----- labels over a session -----

  /** The fixed trees and their version files stay, and nothing more is pending. */
  predicate FixedStays(s: State, t: State) {
    t.p.fixed == s.p.fixed && t.p.versions == s.p.versions && t.a.pending <= s.a.pending
  }

  /** The candidate's code is in place, and unless the swap was all, its version file and maybe its mark. */
  predicate Deployed(s: State, t: State, d: Component, swapOnly: bool) {
    && d in s.a.candidate && t.p.fixed == s.p.fixed[d := s.a.candidate[d].digest]
    && t.p.versions == (if !swapOnly then s.p.versions[d := s.a.candidate[d].version]
                        else if d == Bridge then s.p.versions else s.p.versions - {d})
    && t.a.pending <= s.a.pending + (if swapOnly then {} else {d})
  }

  lemma DeployLeaves(s: State, d: Component, version: Version, cut: nat)
    ensures var (t, outcome) := Deploy(s, d, version, cut);
            FixedStays(s, t) || (Deployed(s, t, d, cut == 1) && (cut == 1 ==> outcome.Torn?))
  {
    hide Readable, Enroll, Complete, Identify, Same, FixedStays, Deployed;
    SeenFixed(s);
    SeenSameAdmission(s);
    if Guarded(s, d) {
      var g := Seen(s);
      SwapDeploys(s, g, d);
      if cut > 2 {
        var marked := Versioned(Swapped(g, d), d).(a := g.a.(pending := g.a.pending + {d}));
        CompleteFixed(marked, d, cut - 3);
        StaysDeployed(s, marked, Complete(marked, d, cut - 3).0, d);
      }
    }
  }

  lemma SeenFixed(s: State)
    ensures FixedStays(s, Seen(s))
  {
    hide Readable, Identify;
  }

  lemma SwapDeploys(s: State, g: State, d: Component)
    requires FixedStays(s, g) && g.a == s.a && d in s.a.candidate
    ensures var w := Versioned(Swapped(g, d), d);
            Deployed(s, Swapped(g, d), d, true) && Deployed(s, w, d, false)
              && Deployed(s, w.(a := g.a.(pending := g.a.pending + {d})), d, false)
  {
  }

  lemma StaysDeployed(s: State, t: State, u: State, d: Component)
    requires Deployed(s, t, d, false) && FixedStays(t, u)
    ensures Deployed(s, u, d, false)
  {
  }

  lemma FixedNewLabel(s: State, t: State, c: Component)
    requires NewLabel(s, c) && FixedStays(s, t) && Outside(s, t)
    requires c == Bridge || (OldBridge(t.p) ==> OldBridge(s.p))
    ensures NewLabel(t, c)
  {
  }

  lemma DeployedNewLabel(s: State, t: State, d: Component, swapOnly: bool, c: Component)
    requires NewLabel(s, c) && Deployed(s, t, d, swapOnly) && Outside(s, t)
    requires c == Bridge || (OldBridge(t.p) ==> OldBridge(s.p))
    requires c == d && swapOnly && c != Bridge ==> !OldBridge(s.p)
    ensures NewLabel(t, c)
  {
    hide OldBridge;
  }

  /** What a writer leaves pending carries the new label still: only a deploy marks anything, it writes
      the version first, and the bridge's version outlives its swap. */
  lemma WriteNewLabel(s: State, call: Call, c: Component)
    requires NewLabel(s, c)
    requires c == Bridge || (!SwapCut(s, call, c) && (OldBridge(Write(s, call).0.p) ==> OldBridge(s.p)))
    ensures NewLabel(Write(s, call).0, c)
  {
    hide Deploy, EnsureUnit, EnsureConfigs, OldBridge, NewLabel, FixedStays, Outside, Deployed;
    WriteOutside(s, call);
    var t := Write(s, call).0;
    match call {
      case CallDeploy(d, version, cut) =>
        DeployLeaves(s, d, version, cut);
        if !FixedStays(s, t) { DeployedNewLabel(s, t, d, cut == 1, c); }
      case CallUnit(d, unit, cut) => EnsureUnitFixed(s, d, unit, cut);
      case CallConfigs(unit, env, cut, envCut) => EnsureConfigsFixed(s, unit, env, cut, envCut);
    }
    if FixedStays(s, t) { FixedNewLabel(s, t, c); }
  }

  lemma CompleteFixed(s: State, d: Component, cut: nat)
    requires d in s.a.candidate
    ensures FixedStays(s, Complete(s, d, cut).0)
  {
    hide Readable, Identify;
  }

  lemma RefreshFixed(s: State, deployment: Option<string>)
    ensures FixedStays(s, Refresh(s, deployment).0)
  {
    hide Readable, Identify;
  }

  lemma SelectBundledFixed(s: State, d: Component, unit: UnitFile, cut: nat)
    requires d in s.a.candidate
    ensures FixedStays(s, SelectBundled(s, d, unit, cut).0)
  {
    hide Complete, Digest;
    if cut > 1 {
      CompleteFixed(WithUnit(s.(unitWrites := s.unitWrites + [UnitWrite(d, Digest(s.p, d))]), d, unit, true), d,
        cut - 2);
    }
  }

  lemma EnsureUnitFixed(s: State, d: Component, unit: UnitFile, cut: nat)
    ensures FixedStays(s, EnsureUnit(s, d, unit, cut).0)
  {
    hide Readable, Identify, SelectBundled, PreservedUnit, Digest;
    if Guarded(s, d) { SelectBundledFixed(Seen(s), d, unit, cut); }
  }

  lemma SelectConfiguredFixed(s: State, unit: UnitFile, deployment: Option<string>, cut: nat)
    requires Bridge in s.a.candidate
    ensures FixedStays(s, SelectConfigured(s, unit, deployment, cut).0)
  {
    hide Complete, Refresh, Digest;
    var logged := s.(unitWrites := s.unitWrites + [UnitWrite(Bridge, Digest(s.p, Bridge))]);
    var written := WithDeployment(WithUnit(logged, Bridge, unit, true), deployment);
    RefreshFixed(written, deployment);
    if cut > 3 {
      CompleteFixed(written, Bridge, cut - 4);
      RefreshFixed(Complete(written, Bridge, cut - 4).0, deployment);
    }
  }

  lemma PreserveConfiguredFixed(s: State, fallback: Option<UnitFile>, deployment: Option<string>, cut: nat, envCut: nat)
    requires Bridge in s.a.incumbent && s.a.incumbent[Bridge].Some?
    ensures FixedStays(s, PreserveConfigured(s, fallback, deployment, cut, envCut).0)
  {
    hide Refresh, PreservedUnit, Digest;
    RefreshFixed(WithDeployment(Preserve(s, Bridge, fallback, cut).0, deployment), deployment);
  }

  lemma EnsureConfigsFixed(s: State, unit: UnitFile, env: Option<string>, cut: nat, envCut: nat)
    ensures FixedStays(s, EnsureConfigs(s, unit, env, cut, envCut).0)
  {
    hide Readable, Identify, SelectConfigured, PreserveConfigured;
    if Guarded(s, Bridge) {
      var g := Seen(s);
      var deployment := NewDeployment(g, env);
      SelectConfiguredFixed(g, unit, deployment, cut);
      if g.a.incumbent[Bridge].Some? {
        PreserveConfiguredFixed(g, None, deployment, cut, envCut);
        PreserveConfiguredFixed(g, Some(unit), deployment, cut, envCut);
      }
    }
  }

  lemma CallLabels(s0: State, s: State, c: Component, call: Call)
    requires Tracked(s0, s, c) && NewLabel(s, c) && BundledUnitFixed(call) && LinkUnitsLinked(s0.p)
    requires s0.a.changes[c] ==> s0.a.incumbent[c].value.digest != s0.a.candidate[c].digest
    requires !SwapCut(s, call, c)
    ensures var t := Write(s, call).0; IdentityKept(s.p, t.p, c) || Labelled(t.p, c)
  {
    hide Readable, IdentityKept, Labelled, Deploy, EnsureUnit, EnsureConfigs, LinkUnitsLinked, Identify, NewLabel,
         OldBridge;
    match call
    case CallDeploy(d, version, cut) =>
      if d == c { DeployLabels(s, c, version, cut); } else { DeployOthers(s, d, version, cut, c); }
    case CallUnit(d, unit, cut) =>
      if d == c { EnsureUnitLabels(s0, s, c, unit, cut); } else { EnsureUnitOthers(s, d, unit, cut, c); }
    case CallConfigs(unit, env, cut, envCut) =>
      if Bridge == c {
        EnsureConfigsLabels(s0, s, unit, env, cut, envCut);
      } else {
        EnsureConfigsOthers(s, unit, env, cut, envCut, c);
      }
  }

  /** No writer makes the bridge old. */
  lemma NeverOlder(s0: State, s: State, call: Call)
    requires Tracked(s0, s, Bridge) && NewLabel(s, Bridge) && BundledUnitFixed(call) && LinkUnitsLinked(s0.p)
    requires s0.a.changes[Bridge] ==> s0.a.incumbent[Bridge].value.digest != s0.a.candidate[Bridge].digest
    ensures OldBridge(Write(s, call).0.p) ==> OldBridge(s.p)
  {
    hide Write, Tracked, NewLabel, LinkUnitsLinked, IdentityKept, Labelled, OldBridge;
    if !SwapCut(s, call, Bridge) {
      CallLabels(s0, s, Bridge, call);
      LabelIsOld(s.p, Write(s, call).0.p);
    }
  }

  lemma LabelIsOld(p: PanelCode, q: PanelCode)
    ensures IdentityKept(p, q, Bridge) || Labelled(q, Bridge) ==> (OldBridge(q) ==> OldBridge(p))
  {
  }

  /** No call of the session is a swap of this component, cut beside an old bridge. */
  predicate NoSwapCut(s: State, calls: seq<Call>, c: Component)
    decreases |calls|
  {
    calls == [] || (!SwapCut(s, calls[0], c) && NoSwapCut(Write(s, calls[0]).0, calls[1..], c))
  }

  /** The component reads as before, or runs code under a label that no pre-ordinal upgrade starts from;
      and the bridge is not newly old. */
  predicate KeptOrLabelled(p: PanelCode, q: PanelCode, c: Component) {
    (IdentityKept(p, q, c) || Labelled(q, c)) && (OldBridge(q) ==> OldBridge(p))
  }

  lemma KeptOrLabelledTrans(p: PanelCode, q: PanelCode, r: PanelCode, c: Component)
    requires KeptOrLabelled(p, q, c) && KeptOrLabelled(q, r, c)
    ensures KeptOrLabelled(p, r, c)
  {
    hide IdentityKept, Labelled, OldBridge;
    if IdentityKept(q, r, c) {
      if IdentityKept(p, q, c) { KeptTrans(p, q, r, c); } else { LabelAfter(q, r, c); }
    }
  }

  /** Everything a session is followed by: one component, and what it brings. */
  ghost predicate Follows(s0: State, s: State, c: Component) {
    && Tracked(s0, s, c) && NewLabel(s, c)
    && (s0.a.changes[c] ==> s0.a.incumbent[c].value.digest != s0.a.candidate[c].digest)
  }

  lemma FollowsOn(s0: State, s: State, call: Call, c: Component)
    requires Follows(s0, s, c) && BundledUnitFixed(call) && LinkUnitsLinked(s0.p)
    requires c == Bridge || (!SwapCut(s, call, c) && (OldBridge(Write(s, call).0.p) ==> OldBridge(s.p)))
    ensures Follows(s0, Write(s, call).0, c)
  {
    hide Write, Tracked, SwapCut, NewLabel, LinkUnitsLinked, OldBridge;
    TrackedCandidate(s0, s, c);
    WriteNewLabel(s, call, c);
    WriteAllTracked(s0, s, c, [call]);
    var t := Write(s, call).0;
    assert [call][1..] == [] && WriteAll(t, []) == t;
  }

  lemma {:induction false} WriteAllOlder(s0: State, s: State, calls: seq<Call>)
    requires Follows(s0, s, Bridge) && BundledUnitsFixed(calls) && LinkUnitsLinked(s0.p)
    ensures OldBridge(WriteAll(s, calls).p) ==> OldBridge(s.p)
    decreases |calls|
  {
    hide Write, Tracked, SwapCut, NewLabel, LinkUnitsLinked, OldBridge;
    if calls != [] {
      assert BundledUnitFixed(calls[0]);
      NeverOlder(s0, s, calls[0]);
      FollowsOn(s0, s, calls[0], Bridge);
      WriteAllOlder(s0, Write(s, calls[0]).0, calls[1..]);
    }
  }

  lemma {:induction false} WriteAllLabels(s0: State, s: State, c: Component, calls: seq<Call>)
    requires Follows(s0, s, c) && Follows(s0, s, Bridge) && BundledUnitsFixed(calls) && LinkUnitsLinked(s0.p)
    requires NoSwapCut(s, calls, c) && KeptOrLabelled(s0.p, s.p, c)
    ensures KeptOrLabelled(s0.p, WriteAll(s, calls).p, c)
    decreases |calls|
  {
    hide Write, Tracked, SwapCut, NewLabel, IdentityKept, Labelled, LinkUnitsLinked, OldBridge;
    if calls != [] {
      assert BundledUnitFixed(calls[0]);
      CallLabels(s0, s, c, calls[0]);
      NeverOlder(s0, s, calls[0]);
      var t := Write(s, calls[0]).0;
      KeptOrLabelledTrans(s0.p, s.p, t.p, c);
      FollowsOn(s0, s, calls[0], c);
      FollowsOn(s0, s, calls[0], Bridge);
      WriteAllLabels(s0, t, c, calls[1..]);
    }
  }

  // ----- one session, seen from outside -----

  lemma NoticedKept(p: PanelCode, c: Component)
    ensures IdentityKept(p, Noticed(p), c) && OldBridge(Noticed(p)) == OldBridge(p)
    ensures Noticed(p).consumed == p.consumed && Noticed(p).linkUnits == p.linkUnits
  {
    EnrollReads(p, c);
    hide Readable;
  }

  /** A bundle that gives an ordinal to a version from before the first release that carried one. */
  predicate Misnumbered(plan: Plan, c: Component) {
    c in plan.bundle && plan.bundle[c].ordinal.Some? && OldLabel(plan.bundle[c].version)
  }

  lemma BeginTracked(p: PanelCode, plan: Plan, c: Component)
    requires Admissible(p, plan) && c in plan.Chosen() && Live(p, c).Some? && !StagedOnly(p, c)
    ensures var s := Begin(p, plan);
            Tracked(s, s, c) && IdentityKept(p, s.p, c)
            && (s.a.changes[c] ==> s.a.incumbent[c].value.digest != s.a.candidate[c].digest)
            && (plan.override.None? && !Misnumbered(plan, c) ==> Follows(s, s, c))
    ensures c in plan.bundle && Begin(p, plan).a.candidate[c] == plan.bundle[c]
  {
    hide Enroll, Readable, KnownOrdinal;
    BeginReads(p, plan, c);
    BeginAdmission(p, plan);
    BeginAt(p, plan, c);
    AdmissibleVerdict(p, plan, c);
    BeginKept(p, plan, c);
  }

  lemma BeginKept(p: PanelCode, plan: Plan, c: Component)
    requires Admissible(p, plan)
    ensures IdentityKept(p, Begin(p, plan).p, c)
    ensures Begin(p, plan).p.consumed == p.consumed + (if plan.override.Some? then {plan.Transaction()} else {})
    ensures OldBridge(Begin(p, plan).p) == OldBridge(p)
    ensures var q := Begin(p, plan).p; q == p.(records := q.records, consumed := q.consumed)
  {
    hide Admissible, AdmitIdentity, Incumbents, Enroll, Live, RunsLinked, Label, OldBridge;
    EnrollReads(p, c);
    EnrollIs(p, c);
    BeginReads(p, plan, c);
    OldBridgeAside(Enroll(p), Begin(p, plan).p);
  }

  /** Which overrides were consumed has no part in what is read. */
  lemma OldBridgeAside(p: PanelCode, q: PanelCode)
    requires q == p.(consumed := q.consumed)
    ensures OldBridge(q) == OldBridge(p)
  {
  }

  lemma AdmissibleVerdict(p: PanelCode, plan: Plan, c: Component)
    requires Admissible(p, plan) && c in plan.Chosen() && Live(p, c).Some?
    ensures c in plan.bundle
    ensures plan.override.None? && AdmitIdentity(Identify(p, c), plan.bundle[c]) != Unchanged ==>
              AdmitIdentity(Identify(p, c), plan.bundle[c]).Change? && plan.bundle[c].ordinal.Some?
  {
    hide Readable, KnownOrdinal;
  }

  /** Which code a session may leave a component with. */
  lemma SessionTracks(p: PanelCode, session: Session, c: Component)
    requires Ships(session) && Steady(p, session, c) && LinkUnitsLinked(p) && Live(p, c).Some?
    ensures var q := After(p, session);
            Live(q, c).Some?
            && (Digest(q, c) != Digest(p, c) ==>
                  Deploys(session) && Admissible(p, session.plan) && c in session.plan.Chosen()
                    && c in session.plan.bundle
                  && Digest(q, c) == Some(session.plan.bundle[c].digest)
                  && (session.plan.override.None? ==> AdmitIdentity(Identify(p, c), session.plan.bundle[c]).Change?))
  {
    hide Readable, Tracked, WriteAll, Begin, Admissible, IdentityKept, Identify, AdmitIdentity, BundledUnitsFixed;
    NoticedKept(p, c);
    KeptLive(p, Noticed(p), c);
    match session
    case Visit =>
    case Wipe(correlation) => WipedKept(p, correlation, c); KeptLive(p, Wiped(p, correlation), c);
    case Activation(plan, deployment, units) =>
      if ActivationRuns(p, plan, units) {
        ActivatedRuns(p, plan, deployment, units, c);
        AdmissibleVerdict(p, plan, c);
      }
    case Writers(plan, calls) =>
      if Admissible(p, plan) {
        var s := Begin(p, plan);
        BeginKept(p, plan, c);
        KeptLive(p, s.p, c);
        if c in plan.Chosen() {
          BeginTracked(p, plan, c);
          BeginAdmission(p, plan);
          BeginReads(p, plan, c);
          WriteAllTracked(s, s, c, calls);
          TrackedSays(s, WriteAll(s, calls), c);
          AdmissibleVerdict(p, plan, c);
          WritersVerdict(p, plan, c);
        } else {
          BeginAdmission(p, plan);
          WriteAllUncovered(s, calls, c);
          KeptLive(s.p, WriteAll(s, calls).p, c);
        }
      }
  }

  /** Where a wipe leaves the selection, the component reads the same. */
  lemma WipedKept(p: PanelCode, correlation: Option<string>, c: Component)
    requires RunsLinked(Wiped(p, correlation), c) == RunsLinked(p, c)
    ensures IdentityKept(p, Wiped(p, correlation), c)
    ensures c == Bridge ==> OldBridge(Wiped(p, correlation)) == OldBridge(p)
  {
  }

  lemma KeptLive(p: PanelCode, q: PanelCode, c: Component)
    requires IdentityKept(p, q, c)
    ensures Digest(q, c) == Digest(p, c) && (Live(p, c).Some? ==> Live(q, c).Some?)
    ensures Known(q, c) <==> Known(p, c)
  {
  }

  lemma WritersVerdict(p: PanelCode, plan: Plan, c: Component)
    requires Admissible(p, plan) && c in plan.Chosen() && Live(p, c).Some?
    ensures var s := Begin(p, plan);
            c in s.a.changes && c in s.a.candidate && c in plan.bundle && s.a.candidate[c] == plan.bundle[c]
            && s.a.incumbent[c].Some? && Digest(p, c) == Some(s.a.incumbent[c].value.digest)
            && (s.a.changes[c] <==> AdmitIdentity(Identify(p, c), plan.bundle[c]) != Unchanged)
  {
    hide Readable, Begin, AdmitIdentity, KnownOrdinal;
    BeginAdmission(p, plan);
    BeginAt(p, plan, c);
  }

  lemma TrackedSays(s0: State, s: State, c: Component)
    requires Tracked(s0, s, c)
    ensures Live(s.p, c).Some?
    ensures Digest(s.p, c) == Some(s0.a.incumbent[c].value.digest) || Digest(s.p, c) == Some(s0.a.candidate[c].digest)
    ensures !s0.a.changes[c] ==> s0.a.incumbent[c].value.digest == s0.a.candidate[c].digest
  {
  }

  /** A selected component runs the release's own code, with its ordinal published. */
  lemma ActivatedReads(s: State, bundle: map<Component, Identity>, deployment: string, units: map<Component, UnitFile>,
      c: Component)
    requires Bridge in bundle && c in bundle && c in s.a.candidate && s.a.candidate[c] == bundle[c] && c in units
             && units[c].linked
    ensures var q := Activated(s, bundle, deployment, units);
            Live(q, c).Some? && Digest(q, c) == Some(bundle[c].digest)
              && Identify(q, c).value.ordinal == bundle[c].ordinal
  {
    var q := Activated(s, bundle, deployment, units);
    assert UnitOf(q, c) == Some(units[c]) && RunsLinked(q, c);
  }

  lemma ActivatedRuns(p: PanelCode, plan: Plan, deployment: string, units: map<Component, UnitFile>, c: Component)
    requires ActivationRuns(p, plan, units) && c in plan.Chosen()
    ensures var q := Activated(Begin(p, plan), plan.bundle, deployment, units);
            Live(q, c).Some? && c in plan.bundle && Digest(q, c) == Some(plan.bundle[c].digest)
            && Identify(q, c).value.ordinal == plan.bundle[c].ordinal
            && AdmitIdentity(Identify(p, c), plan.bundle[c]) != Unchanged
            && LinkUnitsLinked(q) && LinkComplete(q)
            && q.consumed == p.consumed + (if plan.override.Some? then {plan.Transaction()} else {})
  {
    hide Begin, Readable, AdmitIdentity, Incumbents, IdentityKept, Live, Identify, Digest;
    BeginAdmission(p, plan);
    BeginKept(p, plan, c);
    ActivatedReads(Begin(p, plan), plan.bundle, deployment, units, c);
  }

  /** Release units stay linked, and overrides stay consumed, over every session. */
  lemma SessionKeeps(p: PanelCode, session: Session)
    requires Ships(session) && LinkUnitsLinked(p)
    ensures LinkUnitsLinked(After(p, session)) && p.consumed <= After(p, session).consumed
    ensures LinkComplete(p) ==> LinkComplete(After(p, session))
    ensures FreshlyOverridden(p, session)
            && (session.Activation? ==> ActivationRuns(p, session.plan, session.units)) ==>
              session.plan.Transaction() in After(p, session).consumed
  {
    hide Readable, WriteAll, Begin, Admissible, Identify, AdmitIdentity, BundledUnitsFixed;
    NoticedKept(p, Bridge);
    match session
    case Visit =>
    case Wipe(correlation) =>
    case Activation(plan, deployment, units) =>
      if ActivationRuns(p, plan, units) { ActivatedRuns(p, plan, deployment, units, Bridge); }
    case Writers(plan, calls) =>
      if Admissible(p, plan) {
        BeginKept(p, plan, Bridge);
        WriteAllOutside(Begin(p, plan), calls);
      }
  }

  // ----- histories -----

  predicate Shipped(sessions: seq<Session>) { forall i :: 0 <= i < |sessions| ==> Ships(sessions[i]) }

  lemma {:induction false} HistoryKeeps(p: PanelCode, sessions: seq<Session>, n: nat)
    requires Shipped(sessions) && LinkUnitsLinked(p) && n <= |sessions|
    ensures LinkUnitsLinked(History(p, sessions, n)) && (LinkComplete(p) ==> LinkComplete(History(p, sessions, n)))
  {
    hide After, LinkUnitsLinked, LinkComplete, Ships;
    if n > 0 {
      HistoryKeeps(p, sessions, n - 1);
      SessionKeeps(History(p, sessions, n - 1), sessions[n - 1]);
    }
  }

  /** Along every history that starts from complete releases, each session that may not change code
      installs an absent component at most once, and none when frozen. */
  lemma AbsentInstalledOnce(p: PanelCode, sessions: seq<Session>, n: nat, c: Component)
    requires Shipped(sessions) && LinkUnitsLinked(p) && LinkComplete(p) && n < |sessions|
    requires sessions[n].Writers? && Admissible(History(p, sessions, n), sessions[n].plan)
             && !sessions[n].plan.policy.Admit?
    requires c in sessions[n].plan.Chosen() && Live(History(p, sessions, n), c).None?
    ensures var s := WriteAll(Begin(History(p, sessions, n), sessions[n].plan), sessions[n].calls);
            Count(s.installs, c) <= (if sessions[n].plan.policy.Frozen? then 0 else 1)
  {
    hide After, LinkUnitsLinked, LinkComplete, Admissible, Live, WriteAll, Begin, BundledUnitsFixed;
    HistoryKeeps(p, sessions, n);
    PolicyBounds(History(p, sessions, n), sessions[n].plan, sessions[n].calls);
  }

  /**
   * Ordinal monotonicity: at any point of any history, whatever its policies and wherever its writers
   * were cut, a steady session that changes a component's code away from a known ordinal goes to a
   * strictly higher one, or was approved by an override no earlier session had consumed.
   */
  lemma OrdinalsRise(p: PanelCode, sessions: seq<Session>, n: nat, c: Component)
    requires Shipped(sessions) && LinkUnitsLinked(p) && n < |sessions|
    requires Known(History(p, sessions, n), c) && Steady(History(p, sessions, n), sessions[n], c)
    requires Digest(History(p, sessions, n + 1), c) != Digest(History(p, sessions, n), c)
    ensures var before := History(p, sessions, n);
            Deploys(sessions[n]) && c in sessions[n].plan.bundle
            && Digest(History(p, sessions, n + 1), c) == Some(sessions[n].plan.bundle[c].digest)
            && (FreshlyOverridden(before, sessions[n])
                || (sessions[n].plan.bundle[c].ordinal.Some?
                    && sessions[n].plan.bundle[c].ordinal.value > Identify(before, c).value.ordinal.value))
  {
    hide After, LinkUnitsLinked, Live, Readable, KnownOrdinal, Steady, Label;
    HistoryKeeps(p, sessions, n);
    LiveIdentified(History(p, sessions, n), c);
    SessionTracks(History(p, sessions, n), sessions[n], c);
  }

  lemma {:induction false} ConsumedGrows(p: PanelCode, sessions: seq<Session>, i: nat, j: nat)
    requires Shipped(sessions) && LinkUnitsLinked(p) && i <= j <= |sessions|
    ensures History(p, sessions, i).consumed <= History(p, sessions, j).consumed
  {
    hide After, LinkUnitsLinked, Live;
    if i < j {
      ConsumedGrows(p, sessions, i, j - 1);
      HistoryKeeps(p, sessions, j - 1);
      SessionKeeps(History(p, sessions, j - 1), sessions[j - 1]);
    }
  }

  /** No override record is consumed twice. */
  lemma OverridesAreSingleUse(p: PanelCode, sessions: seq<Session>, i: nat, j: nat)
    requires Shipped(sessions) && LinkUnitsLinked(p) && i < j < |sessions|
    requires FreshlyOverridden(History(p, sessions, i), sessions[i])
             && FreshlyOverridden(History(p, sessions, j), sessions[j])
    requires sessions[i].Activation? ==> ActivationRuns(History(p, sessions, i), sessions[i].plan, sessions[i].units)
    ensures sessions[i].plan.Transaction() != sessions[j].plan.Transaction()
  {
    hide After, LinkUnitsLinked, Live, Admissible, ActivationRuns;
    HistoryKeeps(p, sessions, i);
    SessionKeeps(History(p, sessions, i), sessions[i]);
    ConsumedGrows(p, sessions, i + 1, j);
  }

  // ----- firmware updates -----

  /** The staged copy of a component's unit selects what its live unit selects. */
  predicate CopiesAgree(p: PanelCode, c: Component) {
    c in p.live ==> if c in p.staged then p.staged[c].linked == p.live[c].linked else p.live[c].linked
  }

  /** Whatever came before it, a firmware update leaves a component the code it runs, its label and its
      ordinal exactly when there is no link or the copies of its unit agree. */
  lemma WipeSelects(p: PanelCode, sessions: seq<Session>, n: nat, c: Component)
    requires n < |sessions| && sessions[n].Wipe?
    ensures var (before, after) := (History(p, sessions, n), History(p, sessions, n + 1));
            && (RunsLinked(after, c) == RunsLinked(before, c) <==> before.link.None? || CopiesAgree(before, c))
            && (before.link.None? || CopiesAgree(before, c) ==> IdentityKept(before, after, c))
  {
    var before := History(p, sessions, n);
    hide History, Live;
    assert History(p, sessions, n + 1) == After(before, sessions[n]);
    if RunsLinked(Wiped(before, sessions[n].correlation), c) == RunsLinked(before, c) {
      WipedKept(before, sessions[n].correlation, c);
    }
  }

  /** A unit writer that is done leaves its component's copies in agreement, whatever they were. */
  lemma UnitWriterAgrees(s: State, call: Call, c: Component)
    requires (call.CallUnit? && call.component == c) || (call.CallConfigs? && c == Bridge)
    requires Write(s, call).1.Done?
    ensures CopiesAgree(Write(s, call).0.p, c)
  {
    hide Readable, Identify, Enroll, Same, SelectBundled, SelectConfigured, Preserve, PreserveConfigured;
    SeenSameAdmission(s);
    var g := Seen(s);
    match call
    case CallUnit(d, unit, cut) =>
      if Guarded(s, c) {
        if g.a.incumbent[c].Some? {
          PreserveAgrees(g, c, None, cut);
          PreserveAgrees(g, c, Some(unit), cut);
        }
        SelectBundledAgrees(g, c, unit, cut);
      }
    case CallConfigs(unit, env, cut, envCut) =>
      if Guarded(s, Bridge) {
        var deployment := NewDeployment(g, env);
        if g.a.incumbent[Bridge].Some? {
          PreserveConfiguredAgrees(g, None, deployment, cut, envCut);
          PreserveConfiguredAgrees(g, Some(unit), deployment, cut, envCut);
        }
        SelectConfiguredAgrees(g, unit, deployment, cut);
      }
  }

  lemma PreserveAgrees(s: State, c: Component, fallback: Option<UnitFile>, cut: nat)
    requires c in s.a.incumbent && s.a.incumbent[c].Some?
    ensures Preserve(s, c, fallback, cut).1.Done? ==> CopiesAgree(Preserve(s, c, fallback, cut).0.p, c)
  {
    hide PreservedUnit, Digest;
  }

  lemma SelectBundledAgrees(s: State, c: Component, unit: UnitFile, cut: nat)
    requires c in s.a.candidate
    ensures SelectBundled(s, c, unit, cut).1.Done? ==> CopiesAgree(SelectBundled(s, c, unit, cut).0.p, c)
  {
    hide Digest, Complete;
    if cut > 1 {
      var written := WithUnit(s.(unitWrites := s.unitWrites + [UnitWrite(c, Digest(s.p, c))]), c, unit, true);
      CompleteReads(written, c, cut - 2, c);
    }
  }

  lemma RefreshReads(s: State, deployment: Option<string>)
    ensures var q := Refresh(s, deployment).0.p; q == s.p.(records := q.records)
  {
    hide Readable, Identify;
  }

  lemma PreserveConfiguredAgrees(s: State, fallback: Option<UnitFile>, deployment: Option<string>, cut: nat,
      envCut: nat)
    requires Bridge in s.a.incumbent && s.a.incumbent[Bridge].Some?
    ensures var (t, outcome) := PreserveConfigured(s, fallback, deployment, cut, envCut);
            outcome.Done? ==> CopiesAgree(t.p, Bridge)
  {
    hide Preserve, Refresh;
    PreserveAgrees(s, Bridge, fallback, cut);
    RefreshReads(WithDeployment(Preserve(s, Bridge, fallback, cut).0, deployment), deployment);
  }

  lemma SelectConfiguredAgrees(s: State, unit: UnitFile, deployment: Option<string>, cut: nat)
    requires Bridge in s.a.candidate
    ensures var (t, outcome) := SelectConfigured(s, unit, deployment, cut); outcome.Done? ==> CopiesAgree(t.p, Bridge)
  {
    hide Digest, Complete, Refresh;
    if cut > 3 {
      var logged := s.(unitWrites := s.unitWrites + [UnitWrite(Bridge, Digest(s.p, Bridge))]);
      var written := WithDeployment(WithUnit(logged, Bridge, unit, true), deployment);
      RefreshReads(written, deployment);
      CompleteReads(written, Bridge, cut - 4, Bridge);
      RefreshReads(Complete(written, Bridge, cut - 4).0, deployment);
    }
  }

  /** An activation replaces the live units only, so it leaves the copies in agreement exactly where no
      staged unit runs fixed code: after the first one, a firmware update may select the old code. */
  lemma ActivationAgrees(p: PanelCode, plan: Plan, deployment: string, units: map<Component, UnitFile>, c: Component)
    requires ActivationRuns(p, plan, units) && c in plan.Chosen()
    ensures CopiesAgree(After(p, Activation(plan, deployment, units)), c) <==> (c in p.staged ==> p.staged[c].linked)
  {
    hide Admissible, AdmitIdentity, Begin, Identify;
    BeginKept(p, plan, c);
  }

  // ----- pre-ordinal upgrades -----

  /** The session replaced code from before the first ordinal. */
  predicate PreOrdinal(p: PanelCode, session: Session, c: Component) {
    && Deploys(session) && c in session.plan.bundle && Digest(After(p, session), c) != Digest(p, c)
    && IsPreOrdinalUpgrade(Identify(p, c), session.plan.bundle[c])
  }

  predicate Overridden(session: Session) { Deploys(session) && session.plan.override.Some? }

  /** Installed code a pre-ordinal upgrade can start from. */
  predicate Legacy(p: PanelCode, c: Component) {
    Identify(p, c).Some? && Identify(p, c).value.ordinal.None? && OldLabel(Identify(p, c).value.version)
  }

  /** The session leaves the component legacy anew: it was not, or it ran other code. */
  predicate Relegated(p: PanelCode, session: Session, c: Component) {
    Legacy(After(p, session), c) && !(Legacy(p, c) && Digest(After(p, session), c) == Digest(p, c))
  }

  /** What can be seen before a session that may show old code: the component is absent, it is not steady,
      or the bundle gives it an ordinal under a version from before the first one. */
  predicate Unsettled(p: PanelCode, session: Session, c: Component) {
    Live(p, c).None? || !Steady(p, session, c) || (session.Writers? && Misnumbered(session.plan, c))
  }

  /** A writer of the session was cut between the code of this component and its version file, while the
      bridge ran under an old version. */
  predicate HasSwapCut(p: PanelCode, session: Session, c: Component) {
    session.Writers? && Admissible(p, session.plan) && !NoSwapCut(Begin(p, session.plan), session.calls, c)
  }

  /** The session leaves the component legacy anew, by a cut swap, or where it or the bridge, whose label a
      watchdog without a version file inherits, was unsettled. */
  predicate LeavesOldLabel(p: PanelCode, session: Session, c: Component) {
    && Relegated(p, session, c)
    && (HasSwapCut(p, session, c) || Unsettled(p, session, c) || Unsettled(p, session, Bridge))
  }

  lemma LegacyIs(p: PanelCode, q: PanelCode, c: Component)
    requires KeptOrLabelled(p, q, c)
    ensures Legacy(q, c) ==> Legacy(p, c) && Digest(q, c) == Digest(p, c)
  {
  }

  lemma LiveIdentified(p: PanelCode, c: Component)
    ensures Identify(p, c).Some? <==> Live(p, c).Some?
  {
  }

  lemma KnownIs(p: PanelCode, c: Component)
    requires Identify(p, c).Some? && Identify(p, c).value.ordinal.Some?
    ensures !Legacy(p, c)
  {
  }

  /** No session leaves a component legacy anew but by a cut swap, or where it or the bridge is unsettled. */
  lemma SessionLabels(p: PanelCode, session: Session, c: Component)
    requires Ships(session) && LinkUnitsLinked(p) && !Overridden(session) && Relegated(p, session, c)
    ensures HasSwapCut(p, session, c) || Unsettled(p, session, c) || Unsettled(p, session, Bridge)
  {
    hide Readable, WriteAll, Begin, Admissible, IdentityKept, Labelled, BundledUnitsFixed, Legacy, KnownOrdinal,
         Identify, Digest, OldBridge, Live, Misnumbered, StagedOnly;
    if !Unsettled(p, session, c) && !Unsettled(p, session, Bridge) {
      NoticedKept(p, c);
      LegacyIs(p, Noticed(p), c);
      match session
      case Visit =>
      case Wipe(correlation) =>
        WipedKept(p, correlation, c);
        WipedKept(p, correlation, Bridge);
        LegacyIs(p, Wiped(p, correlation), c);
      case Activation(plan, deployment, units) =>
        if ActivationRuns(p, plan, units) {
          ActivatedRuns(p, plan, deployment, units, c);
          AdmissibleVerdict(p, plan, c);
          LiveIdentified(After(p, session), c);
          KnownIs(After(p, session), c);
        }
      case Writers(plan, calls) =>
        if Admissible(p, plan) && NoSwapCut(Begin(p, plan), calls, c) { WritersLabels(p, plan, calls, c); }
    }
  }

  lemma WritersLabels(p: PanelCode, plan: Plan, calls: seq<Call>, c: Component)
    requires Admissible(p, plan) && BundledUnitsFixed(calls) && LinkUnitsLinked(p) && plan.override.None?
    requires !Unsettled(p, Writers(plan, calls), c) && !Unsettled(p, Writers(plan, calls), Bridge)
    requires NoSwapCut(Begin(p, plan), calls, c)
    ensures var q := WriteAll(Begin(p, plan), calls).p; Legacy(q, c) ==> Legacy(p, c) && Digest(q, c) == Digest(p, c)
  {
    hide Readable, Tracked, WriteAll, Begin, Admissible, IdentityKept, Labelled, BundledUnitsFixed, Legacy,
         KnownOrdinal, NewLabel, Identify, Digest, OldBridge, Live, Misnumbered, StagedOnly, NoSwapCut;
    var s := Begin(p, plan);
    BeginKept(p, plan, c);
    LegacyIs(p, s.p, c);
    BeginTracked(p, plan, Bridge);
    OthersKept(s.p, s.p, c);
    if c in plan.Chosen() {
      BeginTracked(p, plan, c);
      WriteAllLabels(s, s, c, calls);
    } else {
      BeginAdmission(p, plan);
      WriteAllUncovered(s, calls, c);
      WriteAllOlder(s, s, calls);
    }
    LegacyIs(s.p, WriteAll(s, calls).p, c);
  }

  function PreOrdinals(p: PanelCode, sessions: seq<Session>, n: nat, c: Component): nat
    requires n <= |sessions|
  {
    if n == 0 then 0
    else
      PreOrdinals(p, sessions, n - 1, c)
      + if PreOrdinal(History(p, sessions, n - 1), sessions[n - 1], c) then 1 else 0
  }

  function OldLabels(p: PanelCode, sessions: seq<Session>, n: nat, c: Component): nat
    requires n <= |sessions|
  {
    if n == 0 then 0
    else
      OldLabels(p, sessions, n - 1, c)
      + if LeavesOldLabel(History(p, sessions, n - 1), sessions[n - 1], c) then 1 else 0
  }

  lemma PreOrdinalNeedsLegacy(p: PanelCode, session: Session, c: Component)
    requires PreOrdinal(p, session, c)
    ensures Legacy(p, c) && Digest(After(p, session), c) != Digest(p, c)
  {
    hide After, KnownOrdinal, Live;
  }

  /** Without overrides a component is upgraded from before the first ordinal at most once, plus once
      for every session that left an old label on it anew, which takes one of the known causes. */
  lemma {:induction false} PreOrdinalAtMostOnce(p: PanelCode, sessions: seq<Session>, n: nat, c: Component)
    requires Shipped(sessions) && LinkUnitsLinked(p) && n <= |sessions|
    requires forall i :: 0 <= i < |sessions| ==> !Overridden(sessions[i])
    ensures PreOrdinals(p, sessions, n, c) + (if Legacy(History(p, sessions, n), c) then 1 else 0)
            <= 1 + OldLabels(p, sessions, n, c)
  {
    hide After, LinkUnitsLinked, Live, Legacy, PreOrdinal, Digest, Unsettled, HasSwapCut;
    if n > 0 {
      PreOrdinalAtMostOnce(p, sessions, n - 1, c);
      HistoryKeeps(p, sessions, n - 1);
      var before := History(p, sessions, n - 1);
      if PreOrdinal(before, sessions[n - 1], c) { PreOrdinalNeedsLegacy(before, sessions[n - 1], c); }
      if Relegated(before, sessions[n - 1], c) { SessionLabels(before, sessions[n - 1], c); }
    }
  }

  // ----- what a deploy of fixed code leaves -----

  /** A session that does nothing but deploy the bundle's code of one component, cut after `cut` writes. */
  function Deploying(plan: Plan, c: Component, cut: nat): Session
    requires c in plan.bundle
  {
    Writers(plan, [CallDeploy(c, plan.bundle[c].version, cut)])
  }

  /** An admitted change of a component that runs its fixed tree. */
  predicate ChangesFixed(p: PanelCode, plan: Plan, c: Component) {
    && Admissible(p, plan) && plan.policy.Admit? && c in plan.Chosen() && Live(p, c).Some? && !RunsLinked(p, c)
    && AdmitIdentity(Identify(p, c), plan.bundle[c]) != Unchanged
  }

  lemma BegunGuarded(p: PanelCode, plan: Plan, c: Component)
    requires Admissible(p, plan) && c in plan.Chosen()
    ensures Guarded(Begin(p, plan), c)
  {
    hide Begin, Identify, AdmitIdentity, Live;
    BeginAdmission(p, plan);
    forall d: Component
      ensures Identify(Begin(p, plan).p, d) == Identify(p, d)
              && (Live(Begin(p, plan).p, d).None? ==> d !in Begin(p, plan).p.records)
    {
      BeginReads(p, plan, d);
    }
  }

  /** The state in which the swap of such a change starts. */
  function Admitted(p: PanelCode, plan: Plan): State
    requires Admissible(p, plan)
  {
    Seen(Begin(p, plan))
  }

  lemma AdmittedReads(p: PanelCode, plan: Plan, c: Component)
    requires ChangesFixed(p, plan, c)
    ensures var g := Admitted(p, plan);
            && g.p == p.(records := g.p.records, consumed := Begin(p, plan).p.consumed)
            && RunsLinked(g.p, c) == RunsLinked(p, c) && Live(g.p, c) == Live(p, c) && OldBridge(g.p) == OldBridge(p)
            && StagedOnly(g.p, c) == StagedOnly(p, c)
            && c in g.a.candidate && g.a.candidate[c] == plan.bundle[c]
            && Digest(p, c) != Some(plan.bundle[c].digest)
            && (c in g.p.records ==> Digest(p, c) == Some(g.p.records[c].digest))
  {
    hide Readable, Begin, AdmitIdentity, Admissible, KnownOrdinal, Label, OldBridge;
    AdmissibleVerdict(p, plan, c);
    var s := Begin(p, plan);
    BeginKept(p, plan, c);
    BeginReads(p, plan, c);
    WritersVerdict(p, plan, c);
    ChangeDiffers(Identify(p, c), plan.bundle[c]);
    SeenReads(s, c);
    SeenSameAdmission(s);
    BegunGuarded(p, plan, c);
    SeenRecord(s, c);
  }

  lemma ChangeDiffers(incumbent: Option<Identity>, candidate: Identity)
    requires incumbent.Some? && AdmitIdentity(incumbent, candidate) != Unchanged
    ensures incumbent.value.digest != candidate.digest
  {
  }

  lemma SeenRecord(s: State, c: Component)
    requires Readable(s.p)
    ensures var r := Seen(s).p.records; c in r ==> Digest(s.p, c) == Some(r[c].digest)
  {
    hide Readable, KnownOrdinal, Label;
  }

  /** What the one call of the session does. */
  lemma DeployRuns(p: PanelCode, plan: Plan, c: Component, cut: nat)
    requires ChangesFixed(p, plan, c) && cut >= 1
    ensures var g := Admitted(p, plan);
            var call := CallDeploy(c, plan.bundle[c].version, cut);
            var q := After(p, Deploying(plan, c, cut));
            && c in g.a.candidate
            && (cut == 1 ==> q == Swapped(g, c).p && Write(Begin(p, plan), call).1.Torn?)
            && (cut > 1 ==> q == Versioned(Swapped(g, c), c).p.(records := q.records))
  {
    hide Readable, Begin, AdmitIdentity, Admissible, KnownOrdinal, Label, OldBridge, Same, Enroll, Complete, Live,
         RunsLinked, Identify;
    NotLinked(p, plan, c);
    AdmittedReads(p, plan, c);
    var s := Begin(p, plan);
    var call := CallDeploy(c, plan.bundle[c].version, cut);
    BeginAdmission(p, plan);
    BegunGuarded(p, plan, c);
    WritersVerdict(p, plan, c);
    SeenSameAdmission(s);
    var g := Seen(s);
    var marked := Versioned(Swapped(g, c), c).(a := g.a.(pending := g.a.pending + {c}));
    if cut > 2 { CompleteReads(marked, c, cut - 3, c); }
    assert [call][1..] == [] && WriteAll(s, [call]) == Write(s, call).0;
  }

  /** The swap of a component that runs its fixed tree: its new code shows, unless its unit went with it. */
  lemma SwapShows(g: State, q: PanelCode, c: Component)
    requires !RunsLinked(g.p, c) && c in g.a.candidate
    requires q == g.p.(fixed := q.fixed, versions := q.versions, staged := q.staged, records := q.records)
    requires q.staged == (if c == Bridge then g.p.staged else g.p.staged - {c}) && c in q.fixed
    ensures RunsLinked(q, c) <==> StagedOnly(g.p, c)
    ensures Digest(q, c) == if !StagedOnly(g.p, c) then Some(q.fixed[c])
                            else if c in g.p.link.value then Some(g.p.link.value[c].digest) else None
  {
  }

  /** The failing family of a deploy is exact: wherever it is cut once its swap is done, the panel shows the
      bundle's code, except under a link for a watchdog that has a fixed unit only as its staged copy. That one
      then runs what the link names, its own code or none at all, whatever the bundle was. */
  lemma DeployShows(p: PanelCode, plan: Plan, c: Component, cut: nat)
    requires ChangesFixed(p, plan, c) && cut >= 1
    ensures var q := After(p, Deploying(plan, c, cut));
            && (RunsLinked(q, c) <==> StagedOnly(p, c))
            && (Digest(q, c) == Some(plan.bundle[c].digest) <==>
                  !StagedOnly(p, c) || (c in p.link.value && p.link.value[c].digest == plan.bundle[c].digest))
            && (StagedOnly(p, c) ==> Digest(q, c) == if c in p.link.value then Some(p.link.value[c].digest) else None)
  {
    hide After, ChangesFixed, Admitted, RunsLinked, Live, Digest, OldBridge, StagedOnly, Admissible, AdmitIdentity,
         Identify;
    AdmittedReads(p, plan, c);
    DeployRuns(p, plan, c, cut);
    NotLinked(p, plan, c);
    var g := Admitted(p, plan);
    SwapShows(g, After(p, Deploying(plan, c, cut)), c);
  }

  lemma NotLinked(p: PanelCode, plan: Plan, c: Component)
    requires ChangesFixed(p, plan, c)
    ensures !RunsLinked(p, c) && c in plan.bundle && Live(p, c).Some? && Admissible(p, plan)
  {
    AdmissibleVerdict(p, plan, c);
  }

  // ----- a swap cut before its version file -----

  /** After a cut swap every other component reads as before, and this one runs the new code in its fixed
      place with no ordinal, under an old label exactly where the bridge is old. */
  lemma CutSwapReads(p: PanelCode, plan: Plan, c: Component)
    requires ChangesFixed(p, plan, c) && !StagedOnly(p, c)
    ensures var q := After(p, Deploying(plan, c, 1));
            && Live(q, c).Some? && !RunsLinked(q, c) && !StagedOnly(q, c) && OldBridge(q) == OldBridge(p)
            && Identify(q, c).Some? && Identify(q, c).value.digest == plan.bundle[c].digest
               && Identify(q, c).value.ordinal.None?
            && (OldLabel(Identify(q, c).value.version) <==> OldBridge(p))
  {
    hide After, ChangesFixed, Admitted, AdmitIdentity, Admissible, OldLabel;
    AdmittedReads(p, plan, c);
    DeployRuns(p, plan, c, 1);
    NotLinked(p, plan, c);
    CutSwapIs(Admitted(p, plan), c);
  }

  lemma CutSwapIs(g: State, c: Component)
    requires !RunsLinked(g.p, c) && !StagedOnly(g.p, c) && Live(g.p, c).Some? && c in g.a.candidate
    requires c in g.p.records ==> g.p.records[c].digest != g.a.candidate[c].digest
    ensures var q := Swapped(g, c).p;
            && Live(q, c).Some? && !RunsLinked(q, c) && !StagedOnly(q, c) && OldBridge(q) == OldBridge(g.p)
            && Identify(q, c).value.digest == g.a.candidate[c].digest && Identify(q, c).value.ordinal.None?
            && (OldLabel(Identify(q, c).value.version) <==> OldBridge(g.p))
  {
    hide OldLabel;
    var q := Swapped(g, c).p;
    assert !RunsLinked(q, c);
    assert RunsLinked(q, Bridge) == RunsLinked(g.p, Bridge);
    UnknownIsNew();
  }

  lemma UnknownIsNew()
    ensures !OldLabel(Other("unknown"))
  {
  }

  /** A bundle from the first ordinal on. */
  predicate Ordinal(bundle: Identity) {
    bundle.ordinal.Some? && bundle.version.Strict? && !Earlier(bundle.version, FIRST_ORDINAL_RELEASE)
  }

  /** What the next bundle of a cut swap meets, for every component and every bundle with other code: a
      pre-ordinal upgrade if and only if the bridge is old and the bundle is an ordinal one, and otherwise a
      refusal. */
  lemma CutSwapDecides(p: PanelCode, plan: Plan, c: Component, later: Identity)
    requires ChangesFixed(p, plan, c) && !StagedOnly(p, c) && later.digest != plan.bundle[c].digest
    ensures var seen := Identify(After(p, Deploying(plan, c, 1)), c);
            && (IsPreOrdinalUpgrade(seen, later) <==> OldBridge(p) && Ordinal(later))
            && AdmitIdentity(seen, later) == if OldBridge(p) && Ordinal(later) then Change else Blocked
  {
    hide After, ChangesFixed, Identify, OldBridge, OldLabel, StagedOnly, RunsLinked, Live;
    CutSwapReads(p, plan, c);
  }

  /** Beside a linked or newer bridge a cut swap leaves a component that no other code may replace without
      an override. */
  lemma CutSwapBlocks(p: PanelCode, plan: Plan, c: Component, later: Plan)
    requires ChangesFixed(p, plan, c) && !StagedOnly(p, c) && !OldBridge(p)
    requires later.override.None? && c in later.Chosen() && c in later.bundle
             && later.bundle[c].digest != plan.bundle[c].digest
    ensures !Admissible(After(p, Deploying(plan, c, 1)), later)
  {
    hide After, ChangesFixed, Identify, OldBridge, StagedOnly, RunsLinked, Live, Readable, AdmitIdentity,
         IsPreOrdinalUpgrade;
    CutSwapDecides(p, plan, c, later.bundle[c]);
  }

  /** Beside an old bridge the new code carries the old label and no ordinal, so the session counts, and the
      next ordinal bundle is a pre-ordinal upgrade, whether or not this one was. */
  lemma TornSwapCountsAgain(p: PanelCode, plan: Plan, c: Component, later: Identity)
    requires ChangesFixed(p, plan, c) && !StagedOnly(p, c) && OldBridge(p)
    requires Ordinal(later) && later.digest != plan.bundle[c].digest
    ensures var session := Deploying(plan, c, 1);
            && LeavesOldLabel(p, session, c) && IsPreOrdinalUpgrade(Identify(After(p, session), c), later)
            && (IsPreOrdinalUpgrade(Identify(p, c), plan.bundle[c]) ==> PreOrdinal(p, session, c))
  {
    hide After, ChangesFixed, Identify, OldLabel, StagedOnly, RunsLinked, Live, Admissible, IsPreOrdinalUpgrade,
         Write, Begin, Unsettled;
    NotLinked(p, plan, c);
    CutSwapDecides(p, plan, c, later);
    CutSwapReads(p, plan, c);
    AdmittedReads(p, plan, c);
    DeployRuns(p, plan, c, 1);
    BeginKept(p, plan, c);
    DigestIs(After(p, Deploying(plan, c, 1)), c);
    assert SwapCut(Begin(p, plan), CallDeploy(c, plan.bundle[c].version, 1), c);
  }

  lemma DigestIs(p: PanelCode, c: Component)
    requires Identify(p, c).Some?
    ensures Digest(p, c) == Some(Identify(p, c).value.digest)
  {
  }

  /** The plan with another bundle for one component. */
  function Rebundled(plan: Plan, c: Component, later: Identity): Plan { plan.(bundle := plan.bundle[c := later]) }

  /** The bound is attained: beside an old bridge the session after the cut swap is admitted, and whatever it
      is cut at once its own swap is done, it upgrades the component from before the first ordinal a second
      time. */
  lemma TornSwapUpgradesTwice(p: PanelCode, plan: Plan, c: Component, later: Identity, cut: nat)
    requires ChangesFixed(p, plan, c) && !StagedOnly(p, c) && OldBridge(p) && plan.override.None?
    requires IsPreOrdinalUpgrade(Identify(p, c), plan.bundle[c])
    requires Ordinal(later) && later.digest != plan.bundle[c].digest && cut >= 1
    ensures var sessions := [Deploying(plan, c, 1), Deploying(Rebundled(plan, c, later), c, cut)];
            PreOrdinals(p, sessions, 2, c) == 2
  {
    hide Admissible, AdmitIdentity, IsPreOrdinalUpgrade, After, PreOrdinal, Live, RunsLinked, LeavesOldLabel,
         Identify, OldBridge, StagedOnly, ChangesFixed;
    NotLinked(p, plan, c);
    var first := Deploying(plan, c, 1);
    var again := Rebundled(plan, c, later);
    var second := Deploying(again, c, cut);
    var sessions := [first, second];
    var q := After(p, first);
    TornSwapCountsAgain(p, plan, c, later);
    CutSwapReads(p, plan, c);
    AgainChanges(p, plan, c, later);
    DeployShows(q, again, c, cut);
    PreOrdinalAgain(q, second, c);
    assert History(p, sessions, 0) == p && History(p, sessions, 1) == q;
    assert PreOrdinals(p, sessions, 1, c) == 1;
  }

  lemma PreOrdinalAgain(q: PanelCode, session: Session, c: Component)
    requires Deploys(session) && c in session.plan.bundle
             && Digest(After(q, session), c) == Some(session.plan.bundle[c].digest)
    requires IsPreOrdinalUpgrade(Identify(q, c), session.plan.bundle[c])
    ensures PreOrdinal(q, session, c)
  {
    hide After, KnownOrdinal, Label;
  }

  /** Every other component reads after a cut swap as it did before it. */
  lemma CutSwapOthers(p: PanelCode, plan: Plan, c: Component, d: Component)
    requires ChangesFixed(p, plan, c) && !StagedOnly(p, c)
    ensures var q := After(p, Deploying(plan, c, 1));
            (d != c ==> Identify(q, d) == Identify(p, d)) && (Live(q, d).None? ==> d !in q.records)
  {
    hide After, ChangesFixed, AdmitIdentity, Admissible, Readable, Begin, OldBridge, Identify, Live, RunsLinked,
         StagedOnly;
    NotLinked(p, plan, c);
    DeployRuns(p, plan, c, 1);
    AdmittedReads(p, plan, c);
    CutSwapReads(p, plan, c);
    var s := Begin(p, plan);
    BeginReads(p, plan, d);
    SeenShows(s, d);
    if d != c { OtherShows(Admitted(p, plan), c, d); }
  }

  lemma SeenShows(s: State, d: Component)
    requires Live(s.p, d).None? ==> d !in s.p.records
    ensures Identify(Seen(s).p, d) == Identify(s.p, d) && Live(Seen(s).p, d) == Live(s.p, d)
    ensures Live(Seen(s).p, d).None? ==> d !in Seen(s).p.records
  {
    EnrollReads(s.p, d);
    EnrollIs(s.p, d);
    hide Readable, Identify, Enroll, Live;
  }

  lemma OtherShows(g: State, c: Component, d: Component)
    requires d != c && c in g.a.candidate && OldBridge(Swapped(g, c).p) == OldBridge(g.p)
    ensures var q := Swapped(g, c).p;
            Identify(q, d) == Identify(g.p, d) && Live(q, d) == Live(g.p, d) && q.records == g.p.records
  {
    hide IdentityKept, Identify;
    OthersKept(g.p, Swapped(g, c).p, d);
    KeptReads(g.p, Swapped(g, c).p, d);
  }

  lemma KeptReads(p: PanelCode, q: PanelCode, c: Component)
    requires IdentityKept(p, q, c) && OldBridge(q) == OldBridge(p) && q.deployment == p.deployment
    requires OldBridge(p) ==> p.versions[Bridge] == q.versions[Bridge]
    ensures Identify(q, c) == Identify(p, c) && Live(q, c) == Live(p, c)
  {
  }

  lemma AllReadable(p: PanelCode)
    requires forall d: Component :: Live(p, d).None? ==> d !in p.records
    ensures Readable(p)
  {
    hide Live;
  }

  /** The next bundle is admitted after a cut swap wherever the first one was. */
  lemma AgainChanges(p: PanelCode, plan: Plan, c: Component, later: Identity)
    requires ChangesFixed(p, plan, c) && !StagedOnly(p, c) && plan.override.None?
    requires IsPreOrdinalUpgrade(Identify(p, c), plan.bundle[c])
    requires IsPreOrdinalUpgrade(Identify(After(p, Deploying(plan, c, 1)), c), later)
    ensures ChangesFixed(After(p, Deploying(plan, c, 1)), Rebundled(plan, c, later), c)
  {
    hide After, Readable, Identify, Live, RunsLinked, StagedOnly, OldBridge, IsPreOrdinalUpgrade, AdmitIdentity;
    var q := After(p, Deploying(plan, c, 1));
    NotLinked(p, plan, c);
    CutSwapReads(p, plan, c);
    forall d: Component
      ensures (d != c ==> Identify(q, d) == Identify(p, d)) && (Live(q, d).None? ==> d !in q.records)
    {
      CutSwapOthers(p, plan, c, d);
    }
    AllReadable(q);
    PreOrdinalChanges(Identify(q, c), later);
  }

  lemma PreOrdinalChanges(incumbent: Option<Identity>, candidate: Identity)
    requires IsPreOrdinalUpgrade(incumbent, candidate)
    ensures AdmitIdentity(incumbent, candidate) == Change
  {
  }
}
