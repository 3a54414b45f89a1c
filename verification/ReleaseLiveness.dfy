/** Updates that go through: what an admitted change ends with when none of its writes fails. */
module ReleaseLiveness {
  import opened Common
  import opened ReleaseIdentity
  import opened ReleaseWriters
  import opened ReleaseBounds
  import opened ReleaseHistory

  /** The panel runs the bundle's release of the component from its fixed tree, under the bundle's ordinal. */
  predicate Shows(p: PanelCode, c: Component, bundle: Identity) {
    Identify(p, c) == Some(Identity(bundle.version, bundle.ordinal, bundle.digest, p.deployment, Fixed))
  }

  /** What a deploy puts in the fixed tree will show: no link hides it, and no staged copy goes with the swap. */
  predicate Visible(p: PanelCode, c: Component) {
    !StagedOnly(p, c) && (RunsLinked(p, c) ==> Live(p, c).Some?)
  }

  /** A fixed watchdog without a version file, which is read under the old bridge's label. */
  predicate Inherits(p: PanelCode, d: Component) {
    d != Bridge && !RunsLinked(p, d) && d in p.fixed && d !in p.versions && OldBridge(p)
  }

  // ----- publishing -----

  lemma PublishLands(s: State, c: Component, cut: nat)
    requires c in s.a.candidate && cut >= 2
    ensures Complete(s, c, cut).1.Done? <==> Readable(s.p) && Digest(s.p, c) == Some(s.a.candidate[c].digest)
    ensures Complete(s, c, cut).1.Done? ==>
              var t := Complete(s, c, cut).0;
              && t.p == s.p.(records := t.p.records)
              && Identify(t.p, c) == Some(Identify(s.p, c).value.(ordinal := s.a.candidate[c].ordinal))
              && t.a == s.a.(incumbent := s.a.incumbent[c := Identify(t.p, c)], pending := s.a.pending - {c})
  {
    hide Readable, Enroll, OldBridge, OldLabel, RunsLinked, Live;
    EnrollReads(s.p, c);
    EnrollFrame(s.p);
    CompleteReads(s, c, cut, c);
  }

  lemma PublishOthers(s: State, c: Component, cut: nat, d: Component)
    requires c in s.a.candidate && cut >= 2 && Complete(s, c, cut).1.Done?
    ensures var t := Complete(s, c, cut).0;
            (d != c ==> Identify(t.p, d) == Identify(s.p, d)) && (Live(t.p, d).None? ==> d !in t.p.records)
  {
    hide Readable, Identify, Enroll, Live, OldBridge, IdentityKept;
    EnrollReads(s.p, d);
    EnrollIs(s.p, d);
    EnrollFrame(s.p);
    CompleteReads(s, c, cut, d);
    LiveIdentified(s.p, c);
    var t := Complete(s, c, cut).0;
    if d != c {
      OthersKept(Seen(s).p, t.p, d);
      KeptReads(Seen(s).p, t.p, d);
    }
  }

  lemma PublishReadable(s: State, c: Component, cut: nat)
    requires c in s.a.candidate && cut >= 2 && Complete(s, c, cut).1.Done?
    ensures var t := Complete(s, c, cut).0; Readable(t.p) && RunsLinked(t.p, c) == RunsLinked(s.p, c)
  {
    hide Complete, Readable, Live, RunsLinked;
    var t := Complete(s, c, cut).0;
    CompleteReads(s, c, cut, c);
    forall d: Component ensures Live(t.p, d).None? ==> d !in t.p.records { PublishOthers(s, c, cut, d); }
    AllReadable(t.p);
  }

  // ----- the swap -----

  function Deployed(g: State, c: Component): State
    requires c in g.a.candidate
  {
    Versioned(Swapped(g, c), c)
  }

  lemma SwapLands(g: State, c: Component)
    requires c in g.a.candidate
    ensures var q := Deployed(g, c).p;
            && (RunsLinked(q, c) <==> RunsLinked(g.p, c) || StagedOnly(g.p, c))
            && (Live(q, c) == if !RunsLinked(q, c)
                              then Some(Code(Some(g.a.candidate[c].version), g.a.candidate[c].digest))
                              else if c in g.p.link.value then Some(g.p.link.value[c]) else None)
            && q == g.p.(fixed := q.fixed, versions := q.versions, staged := q.staged)
            && c in q.fixed && q.fixed[c] == g.a.candidate[c].digest
            && c in q.versions && q.versions[c] == g.a.candidate[c].version
  {
  }

  /** The others read as before, but for the watchdogs that were read under the label the bridge had. */
  lemma SwapOthers(g: State, c: Component, d: Component)
    requires c in g.a.candidate && d != c && (c == Bridge ==> !OldLabel(g.a.candidate[c].version))
    ensures var q := Deployed(g, c).p;
            && Live(q, d) == Live(g.p, d) && RunsLinked(q, d) == RunsLinked(g.p, d)
            && (Identify(q, d) == Identify(g.p, d) <==> !(c == Bridge && Inherits(g.p, d)))
  {
    DeployedApart(g, c, d);
    UnknownIsNew();
    if c == Bridge {
      assert !OldBridge(Deployed(g, c).p);
    } else {
      DeployedOldBridge(g, c);
    }
  }

  // ----- deploying -----

  /** A change the transaction may write now. */
  predicate Writable(s: State, c: Component) {
    Guarded(s, c) && s.a.changes[c] && CodeChangeAllowed(s, c) && (c == Bridge ==> !OldLabel(s.a.candidate[c].version))
  }

  function Marked(g: State, c: Component): State
    requires c in g.a.candidate
  {
    Deployed(g, c).(a := g.a.(pending := g.a.pending + {c}))
  }

  /** The component was admitted as running under the link. */
  predicate FromLink(s: State, c: Component)
    requires c in s.a.incumbent
  {
    s.a.incumbent[c].Some? && s.a.incumbent[c].value.place.Linked?
  }

  lemma DeployIs(s: State, c: Component, cut: nat)
    requires Writable(s, c) && cut >= 5
    ensures Deploy(s, c, s.a.candidate[c].version, cut) ==
              if FromLink(s, c) then (Marked(Seen(s), c), Done) else Complete(Marked(Seen(s), c), c, cut - 3)
    ensures Seen(s).a == s.a && FromLink(s, c) == (RunsLinked(s.p, c) && Live(s.p, c).Some?)
  {
    hide Readable, Enroll, Complete, Live, RunsLinked, OldLabel;
    GuardedPlaces(s, c);
    SeenSameAdmission(s);
    if s.a.incumbent[c].Some? && !s.a.incumbent[c].value.place.Linked? { assert s.a.incumbent[c].value.place.Fixed?; }
  }

  lemma GuardedPlaces(s: State, c: Component)
    requires Guarded(s, c)
    ensures c in s.a.incumbent && c in s.a.candidate && c in s.a.changes && Identify(s.p, c) == s.a.incumbent[c]
    ensures s.a.incumbent[c].Some? <==> Live(s.p, c).Some?
    ensures s.a.incumbent[c].Some? ==> s.a.incumbent[c].value.place == (if RunsLinked(s.p, c) then Linked else Fixed)
  {
    hide Readable, RunsLinked, Live, KnownOrdinal, Label;
  }

  /** Where a marked deploy can be read: everything recorded is still there. */
  lemma MarkedReadable(s: State, c: Component)
    requires Writable(s, c)
    ensures var q := Deployed(Seen(s), c).p;
            && (Live(q, c).Some? ==> Readable(q))
            && (Live(q, c).Some? <==> Visible(s.p, c) || (s.p.link.Some? && c in s.p.link.value))
            && (Digest(q, c) == Some(s.a.candidate[c].digest) <==>
                  (Visible(s.p, c) && !RunsLinked(s.p, c))
                  || ((RunsLinked(s.p, c) || StagedOnly(s.p, c)) && c in s.p.link.value
                      && s.p.link.value[c].digest == s.a.candidate[c].digest))
  {
    hide Readable, Enroll, Live, RunsLinked, OldBridge, OldLabel, Same;
    GuardedReadable(s, c);
    EnrollReads(s.p, c);
    EnrollIs(s.p, c);
    var g := Seen(s);
    var q := Deployed(g, c).p;
    SwapLands(g, c);
    VisibleIs(s.p, c);
    forall d: Component | d != c ensures Live(q, d).None? ==> d !in q.records {
      DeployedApart(g, c, d);
      EnrollIs(s.p, d);
      EnrollReads(s.p, d);
    }
    if Live(q, c).Some? { AllReadable(q); }
  }

  /** A deploy that nothing interrupts fails exactly where its code would not show: under a link that names
      another release's code, or none, for the component. */
  lemma DeployGoesThrough(s: State, c: Component, cut: nat)
    requires Writable(s, c) && cut >= 5
    ensures Deploy(s, c, s.a.candidate[c].version, cut).1.Done? <==>
              Visible(s.p, c) || (c in s.p.link.value && s.p.link.value[c].digest == s.a.candidate[c].digest)
  {
    hide Readable, Enroll, Complete, Live, RunsLinked, OldLabel, Deploy;
    DeployIs(s, c, cut);
    MarkedReadable(s, c);
    if !FromLink(s, c) { PublishLands(Marked(Seen(s), c), c, cut - 3); }
    VisibleIs(s.p, c);
  }

  lemma VisibleIs(p: PanelCode, c: Component)
    ensures !Visible(p, c) ==> p.link.Some? && (RunsLinked(p, c) || StagedOnly(p, c))
    ensures RunsLinked(p, c) ==> !StagedOnly(p, c) && p.link.Some? && (Live(p, c).Some? <==> c in p.link.value)
  {
  }

  /** What an undisturbed deploy leaves: the bundle's code and version in the fixed tree; running already, or
      pending until its unit is selected. */
  ghost predicate Landed(s: State, t: State, c: Component) {
    && c in s.a.candidate && c in s.a.incumbent
    && t.a == s.a.(incumbent := t.a.incumbent, pending := t.a.pending)
    && t.p == s.p.(fixed := t.p.fixed, versions := t.p.versions, staged := t.p.staged, records := t.p.records)
    && c in t.p.fixed && t.p.fixed[c] == s.a.candidate[c].digest
    && c in t.p.versions && t.p.versions[c] == s.a.candidate[c].version
    && Readable(t.p) && RunsLinked(t.p, c) == RunsLinked(s.p, c)
    && (if FromLink(s, c)
        then c in t.a.pending && t.a.incumbent == s.a.incumbent && Identify(t.p, c) == Identify(s.p, c)
        else c !in t.a.pending && t.a.incumbent == s.a.incumbent[c := Identify(t.p, c)]
             && Shows(t.p, c, s.a.candidate[c]))
  }

  /** Under the link a component reads as before, whatever lies in its fixed tree. */
  lemma SwapKeepsLinked(g: State, c: Component)
    requires c in g.a.candidate && RunsLinked(g.p, c)
    ensures Identify(Deployed(g, c).p, c) == Identify(g.p, c)
  {
    SwapLands(g, c);
  }

  lemma DeployLands(s: State, c: Component, cut: nat)
    requires Writable(s, c) && cut >= 5 && Visible(s.p, c)
    ensures var (t, o) := Deploy(s, c, s.a.candidate[c].version, cut); o.Done? && Landed(s, t, c)
  {
    hide Readable, Enroll, Complete, Live, RunsLinked, OldLabel, Deploy, Same;
    GuardedPlaces(s, c);
    DeployIs(s, c, cut);
    MarkedReadable(s, c);
    VisibleIs(s.p, c);
    EnrollFrame(s.p);
    EnrollReads(s.p, c);
    var g := Seen(s);
    SwapLands(g, c);
    if FromLink(s, c) {
      SwapKeepsLinked(g, c);
    } else {
      PublishLands(Marked(g, c), c, cut - 3);
      PublishReadable(Marked(g, c), c, cut - 3);
    }
  }

  lemma LandedOthers(s: State, c: Component, cut: nat, d: Component)
    requires Writable(s, c) && cut >= 5 && Visible(s.p, c) && d != c
    ensures var t := Deploy(s, c, s.a.candidate[c].version, cut).0;
            Identify(t.p, d) == Identify(s.p, d) <==> !(c == Bridge && Inherits(s.p, d))
  {
    hide Readable, Enroll, Complete, Live, RunsLinked, OldLabel, Deploy, Same, OldBridge, Visible, Identify;
    GuardedPlaces(s, c);
    DeployIs(s, c, cut);
    DeployLands(s, c, cut);
    EnrollFrame(s.p);
    EnrollReads(s.p, d);
    var g := Seen(s);
    SwapOthers(g, c, d);
    if !FromLink(s, c) { PublishOthers(Marked(g, c), c, cut - 3, d); }
  }

  /** The next writer of the session passes its guard, unless the deploy changed a label others are read under. */
  lemma GuardedAfter(s: State, c: Component, cut: nat)
    requires Writable(s, c) && cut >= 5 && Visible(s.p, c)
    ensures Guarded(Deploy(s, c, s.a.candidate[c].version, cut).0, c) <==>
              !(c == Bridge && exists d :: d in s.a.incumbent && Inherits(s.p, d))
  {
    hide Readable, Live, RunsLinked, OldLabel, Deploy, OldBridge, Visible, Identify, Inherits, FromLink, Shows;
    var t := Deploy(s, c, s.a.candidate[c].version, cut).0;
    GuardedPlaces(s, c);
    DeployLands(s, c, cut);
    LandedKeys(s, t, c);
    forall d | d in s.a.incumbent && d != c
      ensures Identify(s.p, d) == s.a.incumbent[d] && t.a.incumbent[d] == s.a.incumbent[d]
      ensures Identify(t.p, d) == Identify(s.p, d) <==> !(c == Bridge && Inherits(s.p, d))
    {
      LandedOthers(s, c, cut, d);
    }
    InheritsIs(s.p);
  }

  lemma InheritsIs(p: PanelCode)
    ensures !Inherits(p, Bridge)
  {
  }

  lemma LandedKeys(s: State, t: State, c: Component)
    requires Guarded(s, c) && Landed(s, t, c)
    ensures t.a.incumbent.Keys == s.a.incumbent.Keys && t.a.incumbent[c] == Identify(t.p, c)
    ensures forall d :: d in s.a.incumbent && d != c ==> t.a.incumbent[d] == s.a.incumbent[d]
  {
    GuardedPlaces(s, c);
    hide Readable, RunsLinked, Identify, Shows;
  }

  // ----- the unit -----

  /** The candidate's code lies in the fixed tree, and either runs there or is pending. */
  predicate Selectable(s: State, c: Component) {
    && Guarded(s, c) && s.a.changes[c]
    && c in s.p.fixed && s.p.fixed[c] == s.a.candidate[c].digest
    && c in s.p.versions && s.p.versions[c] == s.a.candidate[c].version
    && (c in s.a.pending || Shows(s.p, c, s.a.candidate[c]))
  }

  lemma FixedUnitRuns(s: State, c: Component, unit: UnitFile)
    requires Selectable(s, c) && !unit.linked
    ensures var q := WithUnit(s, c, unit, true).p;
            && Live(q, c) == Some(Code(Some(s.a.candidate[c].version), s.a.candidate[c].digest)) && !RunsLinked(q, c)
            && Digest(q, c) == Some(s.a.candidate[c].digest)
            && Identify(q, c).value.(ordinal := None)
               == Identity(s.a.candidate[c].version, None, s.a.candidate[c].digest, s.p.deployment, Fixed)
            && (Shows(s.p, c, s.a.candidate[c]) ==> Shows(q, c, s.a.candidate[c]))
  {
    hide Guarded, OldBridge;
  }

  lemma SeenSelectable(s: State, c: Component)
    requires Selectable(s, c)
    ensures Selectable(Seen(s), c) && HasCandidateCode(s, c) && !Keeps(s, c)
    ensures Seen(s).p == s.p.(records := Seen(s).p.records) && Seen(s).a == s.a
  {
    hide Readable, Enroll, RunsLinked, Live;
    GuardedPlaces(s, c);
    GuardedSeen(s, c);
    EnrollReads(s.p, c);
    EnrollFrame(s.p);
  }

  lemma UnitReadable(s: State, c: Component, unit: UnitFile)
    requires Selectable(s, c) && !unit.linked && Readable(s.p)
    ensures Readable(WithUnit(s, c, unit, true).p)
  {
    hide Guarded, Shows;
    var q := WithUnit(s, c, unit, true).p;
    FixedUnitRuns(s, c, unit);
    forall d: Component ensures Live(q, d).None? ==> d !in q.records {
      assert d != c ==> RunsLinked(q, d) == RunsLinked(s.p, d);
    }
    AllReadable(q);
  }

  /** Selecting the bundled unit of a watchdog runs the bundle's code, and publishes its ordinal if that was due. */
  lemma UnitLands(s: State, c: Component, unit: UnitFile, cut: nat)
    requires Selectable(s, c) && !unit.linked && cut >= 4
    ensures var (t, o) := EnsureUnit(s, c, unit, cut);
            o.Done? && Shows(t.p, c, s.a.candidate[c]) && c in t.p.live && t.p.live[c] == unit
            && c in t.p.staged && t.p.staged[c] == unit && t.p.fixed == s.p.fixed && t.p.versions == s.p.versions
            && t.p.link == s.p.link && t.p.deployment == s.p.deployment
  {
    hide Readable, Enroll, RunsLinked, Live, Complete, Same, Identify;
    GuardedPlaces(s, c);
    SeenSelectable(s, c);
    var g := Seen(s);
    FixedUnitRuns(g, c, unit);
    UnitReadable(g, c, unit);
    var logged := g.(unitWrites := g.unitWrites + [UnitWrite(c, Digest(g.p, c))]);
    var written := WithUnit(logged, c, unit, true);
    assert written.p == WithUnit(g, c, unit, true).p;
    if c in g.a.pending { PublishLands(written, c, cut - 2); }
  }

  /** Unchanged code, and code the policy keeps, goes on under the unit it has: the live one, else the release's
      or the staged one, and for unchanged fixed code without any the bundled one. It is laid in both places. */
  lemma KeptUnitLands(s: State, c: Component, unit: UnitFile, cut: nat)
    requires Guarded(s, c) && s.a.incumbent[c].Some? && (!s.a.changes[c] || Keeps(s, c)) && cut >= 2
    ensures var (t, o) := EnsureUnit(s, c, unit, cut);
            var own := if c in s.p.live then Some(s.p.live[c])
                       else if RunsLinked(s.p, c) then if c in s.p.linkUnits then Some(s.p.linkUnits[c]) else None
                       else if c in s.p.staged then Some(s.p.staged[c])
                       else if s.a.changes[c] then None else Some(unit);
            && (o.Done? <==> own.Some?) && (!o.Done? ==> t == Seen(s))
            && (o.Done? ==> t.p == s.p.(live := s.p.live[c := own.value], staged := s.p.staged[c := own.value],
                                        records := t.p.records))
  {
    hide Readable, Enroll, RunsLinked, Live, Complete, Same, Identify;
    GuardedPlaces(s, c);
    GuardedSeen(s, c);
    SeenSameAdmission(s);
    EnrollFrame(s.p);
  }

  // ----- the bridge's unit and environment -----

  function UnderDeployment(identity: Option<Identity>, deployment: Option<string>): Option<Identity> {
    if identity.Some? then Some(identity.value.(deployment := deployment)) else None
  }

  /** The bundled unit and a new environment: nothing but the correlation changes for the others. */
  lemma ConfiguredReads(s: State, unit: UnitFile, deployment: Option<string>, d: Component)
    requires Selectable(s, Bridge) && !unit.linked && !OldLabel(s.a.candidate[Bridge].version) && d != Bridge
    ensures var q := WithDeployment(WithUnit(s, Bridge, unit, true), deployment).p;
            Identify(q, d) == UnderDeployment(Identify(s.p, d), deployment)
  {
    hide Guarded, Shows, OldLabel;
    var q := WithDeployment(WithUnit(s, Bridge, unit, true), deployment).p;
    assert !OldBridge(s.p) && !OldBridge(q);
    assert RunsLinked(q, d) == RunsLinked(s.p, d) && Live(q, d) == Live(s.p, d);
    hide RunsLinked, Live, OldBridge;
  }

  lemma ConfiguredBridge(s: State, unit: UnitFile, deployment: Option<string>)
    requires Selectable(s, Bridge) && !unit.linked
    ensures var q := WithDeployment(WithUnit(s, Bridge, unit, true), deployment).p;
            && Identify(q, Bridge) == UnderDeployment(Identify(WithUnit(s, Bridge, unit, true).p, Bridge), deployment)
            && Identify(q, Bridge).Some? && Digest(q, Bridge) == Some(s.a.candidate[Bridge].digest)
            && (Readable(WithUnit(s, Bridge, unit, true).p) ==> Readable(q))
  {
    hide Guarded, Shows, OldBridge;
    FixedUnitRuns(s, Bridge, unit);
    var p := WithUnit(s, Bridge, unit, true).p;
    var q := p.(deployment := deployment);
    assert forall d: Component :: RunsLinked(q, d) == RunsLinked(p, d) && Live(q, d) == Live(p, d);
  }

  /** What the bridge's configuration ends on. */
  ghost predicate Configured(s: State, t: State, unit: UnitFile, deployment: Option<string>) {
    && Bridge in s.a.candidate && Shows(t.p, Bridge, s.a.candidate[Bridge]) && t.p.deployment == deployment
    && Bridge in t.p.live && t.p.live[Bridge] == unit && Bridge in t.p.staged && t.p.staged[Bridge] == unit
    && t.p.fixed == s.p.fixed && t.p.versions == s.p.versions && t.p.link == s.p.link
  }

  /** The written configuration, with the ordinal published if that was due, just before the correlation is
      looked at again. */
  function Published(g: State, unit: UnitFile, deployment: Option<string>, cut: nat): State
    requires Bridge in g.a.candidate
  {
    var logged := g.(unitWrites := g.unitWrites + [UnitWrite(Bridge, Digest(g.p, Bridge))]);
    var written := WithDeployment(WithUnit(logged, Bridge, unit, true), deployment);
    if Bridge in g.a.pending then Complete(written, Bridge, cut).0 else written
  }

  lemma PublishedReads(g: State, unit: UnitFile, deployment: Option<string>, cut: nat)
    requires Selectable(g, Bridge) && !unit.linked && !OldLabel(g.a.candidate[Bridge].version) && cut >= 2
    ensures var logged := g.(unitWrites := g.unitWrites + [UnitWrite(Bridge, Digest(g.p, Bridge))]);
            var written := WithDeployment(WithUnit(logged, Bridge, unit, true), deployment);
            Bridge in g.a.pending ==> Complete(written, Bridge, cut).1.Done?
    ensures var t := Published(g, unit, deployment, cut);
            && Configured(g, t, unit, deployment) && Readable(t.p) && t.a.incumbent.Keys == g.a.incumbent.Keys
            && (forall d: Component :: d in t.a.incumbent ==>
                  UnderDeployment(t.a.incumbent[d], deployment) == Identify(t.p, d))
  {
    hide Readable, Enroll, RunsLinked, Live, Complete, Identify, OldLabel, OldBridge, Shows, Digest;
    GuardedPlaces(g, Bridge);
    FixedUnitRuns(g, Bridge, unit);
    GuardedReadable(g, Bridge);
    UnitReadable(g, Bridge, unit);
    ConfiguredBridge(g, unit, deployment);
    var logged := g.(unitWrites := g.unitWrites + [UnitWrite(Bridge, Digest(g.p, Bridge))]);
    var written := WithDeployment(WithUnit(logged, Bridge, unit, true), deployment);
    assert written.p == WithDeployment(WithUnit(g, Bridge, unit, true), deployment).p;
    if Bridge in g.a.pending {
      PublishLands(written, Bridge, cut);
      PublishReadable(written, Bridge, cut);
    }
    var t := Published(g, unit, deployment, cut);
    PublishedShows(g, unit, deployment, cut);
    forall d: Component | d in t.a.incumbent
      ensures UnderDeployment(t.a.incumbent[d], deployment) == Identify(t.p, d)
    {
      if d != Bridge {
        GuardedSame(g, d);
        ConfiguredReads(g, unit, deployment, d);
        if Bridge in g.a.pending { PublishOthers(written, Bridge, cut, d); }
      }
    }
  }

  lemma GuardedReadable(s: State, c: Component)
    requires Guarded(s, c)
    ensures Readable(s.p)
  {
  }

  lemma GuardedSame(s: State, d: Component)
    requires Guarded(s, Bridge) && d in s.a.incumbent
    ensures Identify(s.p, d) == s.a.incumbent[d]
  {
  }

  lemma PublishedShows(g: State, unit: UnitFile, deployment: Option<string>, cut: nat)
    requires Selectable(g, Bridge) && !unit.linked && cut >= 2 && Readable(WithUnit(g, Bridge, unit, true).p)
    ensures var t := Published(g, unit, deployment, cut);
            Configured(g, t, unit, deployment)
            && UnderDeployment(t.a.incumbent[Bridge], deployment) == Identify(t.p, Bridge)
  {
    hide Readable, Enroll, RunsLinked, Live, Complete, Identify, OldLabel, OldBridge, Digest, Same;
    GuardedPlaces(g, Bridge);
    FixedUnitRuns(g, Bridge, unit);
    ConfiguredBridge(g, unit, deployment);
    var logged := g.(unitWrites := g.unitWrites + [UnitWrite(Bridge, Digest(g.p, Bridge))]);
    var written := WithDeployment(WithUnit(logged, Bridge, unit, true), deployment);
    assert written.p == WithDeployment(WithUnit(g, Bridge, unit, true), deployment).p;
    if Bridge in g.a.pending { PublishLands(written, Bridge, cut); }
  }

  lemma ConfigsLand(s: State, unit: UnitFile, env: Option<string>, cut: nat, envCut: nat)
    requires Selectable(s, Bridge) && !unit.linked && !OldLabel(s.a.candidate[Bridge].version) && cut >= 6
    ensures var (t, o) := EnsureConfigs(s, unit, env, cut, envCut);
            o.Done? && Configured(s, t, unit, NewDeployment(s, env))
  {
    hide Readable, Enroll, RunsLinked, Live, Complete, Same, Identify, OldLabel, Shows, Digest;
    GuardedPlaces(s, Bridge);
    SeenSelectable(s, Bridge);
    var g := Seen(s);
    var deployment := NewDeployment(g, env);
    PublishedReads(g, unit, deployment, cut - 4);
    var t := Published(g, unit, deployment, cut - 4);
    RefreshLands(t, deployment);
    RefreshConfigured(g, t, unit, deployment);
  }

  lemma RefreshLands(t: State, deployment: Option<string>)
    requires Readable(t.p)
    requires forall d: Component :: d in t.a.incumbent ==>
               UnderDeployment(t.a.incumbent[d], deployment) == Identify(t.p, d)
    ensures Refresh(t, deployment).1.Done?
  {
    hide Readable, Enroll, Identify;
  }

  lemma RefreshConfigured(g: State, t: State, unit: UnitFile, deployment: Option<string>)
    requires Configured(g, t, unit, deployment)
    ensures Configured(g, Refresh(t, deployment).0, unit, deployment)
  {
    hide Readable, Identify, Enroll;
    EnrollReads(t.p, Bridge);
    EnrollFrame(t.p);
  }

  // ----- whole updates -----

  lemma BegunWritable(p: PanelCode, plan: Plan, c: Component)
    requires Admissible(p, plan) && plan.policy.Admit? && c in plan.Chosen()
    requires AdmitIdentity(Identify(p, c), plan.bundle[c]).Change? && (c == Bridge ==> Ordinal(plan.bundle[c]))
    ensures var s := Begin(p, plan);
            && Writable(s, c) && s.a.candidate[c] == plan.bundle[c] && s.a.incumbent.Keys == plan.Chosen()
            && (Visible(s.p, c) <==> Visible(p, c)) && (forall d: Component :: Inherits(s.p, d) <==> Inherits(p, d))
            && s.p.deployment == p.deployment
  {
    hide Readable, Begin, Admissible, AdmitIdentity, RunsLinked, Live, OldBridge, Guarded;
    AdmissibleChosen(p, plan, c);
    BeginAdmission(p, plan);
    BegunGuarded(p, plan, c);
    BeginReads(p, plan, c);
    BegunOldBridge(p, plan);
    forall d: Component ensures Inherits(Begin(p, plan).p, d) <==> Inherits(p, d) { BeginReads(p, plan, d); }
  }

  lemma AdmissibleChosen(p: PanelCode, plan: Plan, c: Component)
    requires Admissible(p, plan) && c in plan.Chosen()
    ensures c in plan.bundle && Candidates(plan)[c] == plan.bundle[c]
  {
    hide Readable, IsPreOrdinalUpgrade, AdmitIdentity, Identify;
  }

  lemma BegunOldBridge(p: PanelCode, plan: Plan)
    requires Admissible(p, plan)
    ensures OldBridge(Begin(p, plan).p) == OldBridge(p)
  {
    hide Admissible, Live, RunsLinked, OldLabel;
    BeginReads(p, plan, Bridge);
  }

  /** An admitted update of a watchdog whose deploy shows ends, when no write fails, on the bundle's code,
      version and ordinal in its fixed place, under the bundled unit: from fixed code, from a release link, and
      from nothing. */
  lemma WatchdogUpdateCompletes(p: PanelCode, plan: Plan, c: Component, unit: UnitFile, cut: nat, unitCut: nat)
    requires Admissible(p, plan) && plan.policy.Admit? && c in plan.Chosen() && c != Bridge
    requires AdmitIdentity(Identify(p, c), plan.bundle[c]).Change? && Visible(p, c) && !unit.linked
    requires cut >= 5 && unitCut >= 4
    ensures var (t, deployed) := Deploy(Begin(p, plan), c, plan.bundle[c].version, cut);
            var (u, selected) := EnsureUnit(t, c, unit, unitCut);
            && deployed.Done? && selected.Done? && Shows(u.p, c, plan.bundle[c]) && u.p.deployment == p.deployment
            && c in u.p.live && u.p.live[c] == unit && c in u.p.staged && u.p.staged[c] == unit
  {
    hide Begin, Admissible, AdmitIdentity, Deploy, EnsureUnit, Visible, Shows, Identify;
    BegunWritable(p, plan, c);
    var s := Begin(p, plan);
    DeployLands(s, c, cut);
    GuardedAfter(s, c, cut);
    var t := Deploy(s, c, s.a.candidate[c].version, cut).0;
    LandedSelectable(s, t, c);
    UnitLands(t, c, unit, unitCut);
  }

  lemma LandedSelectable(s: State, t: State, c: Component)
    requires Landed(s, t, c) && Guarded(t, c) && s.a.changes[c]
    ensures Selectable(t, c) && t.a.candidate == s.a.candidate && t.p.deployment == s.p.deployment
  {
    hide Guarded, Shows, Identify;
  }

  lemma LandedDeployment(s: State, t: State)
    requires Landed(s, t, Bridge) && Guarded(s, Bridge)
    ensures Bridge in t.a.incumbent && t.a.incumbent[Bridge].Some?
            && t.a.incumbent[Bridge].value.deployment == s.p.deployment
  {
    GuardedPlaces(s, Bridge);
    hide Readable, RunsLinked, Guarded;
  }

  /** An admitted update of the bridge whose deploy shows always lands its code. Its configuration goes through
      if and only if no chosen watchdog was read under the old bridge's label, and then the bridge runs the
      bundle under its unit and the environment's correlation. */
  lemma BridgeUpdateCompletes(p: PanelCode, plan: Plan, unit: UnitFile, env: Option<string>, cut: nat,
      configCut: nat, envCut: nat)
    requires Admissible(p, plan) && plan.policy.Admit? && Ordinal(plan.bundle[Bridge]) && Visible(p, Bridge)
    requires AdmitIdentity(Identify(p, Bridge), plan.bundle[Bridge]).Change? && !unit.linked
    requires cut >= 5 && configCut >= 6
    ensures var (t, deployed) := Deploy(Begin(p, plan), Bridge, plan.bundle[Bridge].version, cut);
            var (u, configured) := EnsureConfigs(t, unit, env, configCut, envCut);
            && deployed.Done?
            && (configured.Done? <==> forall d :: d in plan.Chosen() ==> !Inherits(p, d))
            && (!configured.Done? ==> configured.Refused?)
            && (configured.Done? ==>
                  && Shows(u.p, Bridge, plan.bundle[Bridge])
                  && u.p.deployment == (if env.Some? then env else p.deployment)
                  && Bridge in u.p.live && u.p.live[Bridge] == unit
                  && Bridge in u.p.staged && u.p.staged[Bridge] == unit)
  {
    hide Begin, Admissible, AdmitIdentity, Deploy, Visible, Shows, Identify, Refresh, SelectConfigured,
         PreserveConfigured;
    BegunWritable(p, plan, Bridge);
    var s := Begin(p, plan);
    DeployLands(s, Bridge, cut);
    GuardedAfter(s, Bridge, cut);
    var t := Deploy(s, Bridge, s.a.candidate[Bridge].version, cut).0;
    LandedDeployment(s, t);
    if Guarded(t, Bridge) {
      LandedSelectable(s, t, Bridge);
      ConfigsLand(t, unit, env, configCut, envCut);
    }
  }
}
