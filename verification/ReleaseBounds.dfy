/** What a release transaction's policy bounds, for every sequence of writers, completed or cut. */
module ReleaseBounds {
  import opened Common
  import opened ReleaseIdentity
  import opened ReleaseWriters

  /** Every release unit runs the code under the link. */
  predicate LinkUnitsLinked(p: PanelCode) { forall c :: c in p.linkUnits ==> p.linkUnits[c].linked }

  predicate BundledUnitsFixed(calls: seq<Call>) {
    forall i :: 0 <= i < |calls| ==>
      (calls[i].CallUnit? ==> !calls[i].unit.linked) && (calls[i].CallConfigs? ==> !calls[i].unit.linked)
  }

  predicate BundledUnitFixed(call: Call) { (call.CallUnit? || call.CallConfigs?) ==> !call.unit.linked }

  /** A component had code when the transaction was admitted. */
  predicate Had(s0: State, c: Component) { c in s0.a.incumbent && s0.a.incumbent[c].Some? }

  /** A link without the component hides what is deployed for it: the bridge's while no fixed unit is
      there, a watchdog's while no fixed unit is live, since its swap takes the staged one away. */
  predicate Hides(p: PanelCode, c: Component) {
    && p.link.Some? && c !in p.link.value
    && if c == Bridge then RunsLinked(p, c) else !(c in p.live && !p.live[c].linked)
  }

  /** Promotion validates all three code trees, so a release link holds every component. */
  predicate LinkComplete(p: PanelCode) { p.link.Some? ==> forall c: Component :: c in p.link.value }

  lemma CompleteHidesNothing(p: PanelCode, c: Component)
    requires LinkComplete(p)
    ensures !Hides(p, c)
  {
  }

  function Count(items: seq<Component>, c: Component): nat {
    if items == [] then 0 else (if items[0] == c then 1 else 0) + Count(items[1..], c)
  }

  lemma {:induction false} CountAppend(items: seq<Component>, x: Component, c: Component)
    ensures Count(items + [x], c) == Count(items, c) + (if x == c then 1 else 0)
  {
    if items != [] {
      assert (items + [x])[1..] == items[1..] + [x];
      CountAppend(items[1..], x, c);
    } else {
      assert (items + [x])[1..] == [];
    }
  }

  ghost predicate Constants(s0: State, s: State) {
    && s.a.candidate == s0.a.candidate && s.a.changes == s0.a.changes && s.a.policy == s0.a.policy
    && s.a.incumbent.Keys == s0.a.incumbent.Keys
    && s.p.link == s0.p.link && s.p.linkUnits == s0.p.linkUnits
  }

  /** A component admitted with code still runs it, and the admission still says so. */
  ghost predicate Kept(s0: State, s: State, c: Component)
    requires c in s0.a.incumbent && s0.a.incumbent[c].Some?
  {
    var id := s0.a.incumbent[c].value;
    && c in s.a.incumbent && s.a.incumbent[c].Some? && c !in s.a.pending
    && s.a.incumbent[c].value.digest == id.digest && s.a.incumbent[c].value.place == id.place
    && Live(s.p, c).Some? && Live(s.p, c).value.digest == id.digest && PlaceOf(s.p, c) == id.place
    && Count(s.installs, c) == 0
  }

  /** A component admitted without code is installed at most once, unless the link hides it. */
  ghost predicate Added(s0: State, s: State, c: Component) {
    && c in s.a.incumbent
    && (s0.a.policy.Frozen? ==> Count(s.installs, c) == 0)
    && (s.a.incumbent[c].Some? ==> c in s.a.candidate && s.a.incumbent[c].value.digest == s.a.candidate[c].digest)
    && (!Hides(s0.p, c) ==>
          !Hides(s.p, c) && Count(s.installs, c) <= 1
          && (Count(s.installs, c) == 1 ==> s.a.incumbent[c].Some? || Live(s.p, c).Some?))
  }

  predicate WritesOverCandidate(s: State) {
    forall i :: 0 <= i < |s.unitWrites| ==>
      s.unitWrites[i].component in s.a.candidate
      && (s.unitWrites[i].over.Some? ==> s.unitWrites[i].over.value == s.a.candidate[s.unitWrites[i].component].digest)
  }

  /** What admission itself establishes about a component. */
  predicate AdmittedAs(s0: State, c: Component) {
    && c in s0.a.incumbent && c in s0.a.candidate && c in s0.a.changes
    && (s0.a.changes[c] <==> s0.a.incumbent[c].None? || s0.a.incumbent[c].value.digest != s0.a.candidate[c].digest)
  }

  ghost predicate At(s0: State, s: State, c: Component) {
    c in s0.a.incumbent && if s0.a.incumbent[c].Some? then Kept(s0, s, c) else Added(s0, s, c)
  }

  ghost predicate AllAt(s0: State, s: State) { forall c :: c in s0.a.incumbent ==> At(s0, s, c) }

  ghost predicate AllAdmitted(s0: State) {
    && s0.a.candidate.Keys == s0.a.incumbent.Keys && s0.a.changes.Keys == s0.a.incumbent.Keys
    && forall c :: c in s0.a.incumbent ==> AdmittedAs(s0, c)
  }

  predicate InstallsCovered(s0: State, s: State) {
    forall i :: 0 <= i < |s.installs| ==> s.installs[i] in s0.a.incumbent
  }

  ghost predicate Bound(s0: State, s: State) {
    && !s0.a.policy.Admit? && AllAdmitted(s0) && LinkUnitsLinked(s0.p)
    && Constants(s0, s) && AllAt(s0, s) && InstallsCovered(s0, s) && WritesOverCandidate(s)
  }

  lemma AdmittedIs(s0: State, s: State, c: Component)
    requires Bound(s0, s) && c in s0.a.incumbent
    ensures AdmittedAs(s0, c) && c in s.a.incumbent && c in s.a.changes && c in s.a.candidate && At(s0, s, c)
    ensures s.a.candidate == s0.a.candidate && s.a.changes == s0.a.changes && s.a.policy == s0.a.policy
    ensures s.p.link == s0.p.link && !s.a.policy.Admit?
  {
    hide WritesOverCandidate, LinkUnitsLinked, InstallsCovered, At;
  }

  lemma BoundFrom(s0: State, s: State, t: State)
    requires Bound(s0, s) && Constants(s, t) && t.unitWrites == s.unitWrites
    requires t.installs == s.installs || exists c :: c in s0.a.incumbent && t.installs == s.installs + [c]
    requires AllAt(s0, t)
    ensures Bound(s0, t)
  {
    hide AllAt, AllAdmitted, LinkUnitsLinked;
  }

  // ----- every effect of a writer keeps the bound -----

  lemma SeenAt(s0: State, s: State, c: Component)
    requires At(s0, s, c)
    ensures At(s0, Seen(s), c)
  {
    EnrollReads(s.p, c);
    hide Readable, Identify;
  }

  lemma SeenKeeps(s0: State, s: State)
    requires Bound(s0, s)
    ensures Bound(s0, Seen(s))
  {
    hide At, AllAdmitted, LinkUnitsLinked, WritesOverCandidate, InstallsCovered, Readable;
    forall c | c in s0.a.incumbent ensures At(s0, Seen(s), c) { SeenAt(s0, s, c); }
    BoundFrom(s0, s, Seen(s));
  }

  /** New code in one fixed tree is no other component's business. */
  lemma SwapOther(s0: State, s: State, c: Component, d: Component)
    requires At(s0, s, d) && c in s.a.candidate && c != d
    ensures At(s0, Swapped(s, c), d)
  {
    CountAppend(s.installs, c, d);
    hide Count;
    var t := Swapped(s, c);
    assert RunsLinked(t.p, d) == RunsLinked(s.p, d) && Live(t.p, d) == Live(s.p, d);
  }

  lemma SwapAt(s0: State, s: State, c: Component)
    requires At(s0, s, c) && s.p.link == s0.p.link && s.a.policy == s0.a.policy
    requires c in s.a.incumbent && c in s.a.candidate && Identify(s.p, c) == s.a.incumbent[c]
    requires CodeChangeAllowed(s, c) && !s.a.policy.Admit?
    ensures At(s0, Swapped(s, c), c)
  {
    CountAppend(s.installs, c, c);
    hide Count;
    var t := Swapped(s, c);
    assert c == Bridge ==> RunsLinked(t.p, c) == RunsLinked(s.p, c);
  }

  lemma SwapKeeps(s0: State, s: State, c: Component)
    requires Bound(s0, s) && Guarded(s, c) && CodeChangeAllowed(s, c)
    ensures Bound(s0, Swapped(s, c))
  {
    hide At, AllAdmitted, LinkUnitsLinked, WritesOverCandidate, InstallsCovered, Readable, Identify,
         CodeChangeAllowed;
    AdmittedIs(s0, s, c);
    forall d | d in s0.a.incumbent ensures At(s0, Swapped(s, c), d) {
      AdmittedIs(s0, s, d);
      if d == c { SwapAt(s0, s, c); } else { SwapOther(s0, s, c, d); }
    }
    BoundFrom(s0, s, Swapped(s, c));
  }

  /** Live code, place, hiding, admission and count are all a component's bound depends on. */
  lemma SameAt(s0: State, s: State, t: State, d: Component)
    requires At(s0, s, d)
    requires t.p.link == s.p.link && RunsLinked(t.p, d) == RunsLinked(s.p, d) && Digest(t.p, d) == Digest(s.p, d)
    requires d in s.a.incumbent && d in t.a.incumbent && t.a.candidate == s.a.candidate && t.installs == s.installs
    requires if s.a.incumbent[d].Some?
             then t.a.incumbent[d].Some? && t.a.incumbent[d].value.digest == s.a.incumbent[d].value.digest
                  && t.a.incumbent[d].value.place == s.a.incumbent[d].value.place
             else t.a.incumbent[d].Some? ==>
               d in s.a.candidate && t.a.incumbent[d].value.digest == s.a.candidate[d].digest
    requires d in t.a.pending ==> d in s.a.pending || s0.a.incumbent[d].None?
    requires s0.a.incumbent[d].None? && Hides(t.p, d) ==> Hides(s.p, d)
    ensures At(s0, t, d)
  {
  }

  lemma VersionKeeps(s0: State, s: State, c: Component)
    requires Bound(s0, s) && c in s.a.candidate
    ensures Bound(s0, Versioned(s, c))
  {
    hide At, AllAdmitted, LinkUnitsLinked, WritesOverCandidate, InstallsCovered;
    var t := Versioned(s, c);
    forall d | d in s0.a.incumbent ensures At(s0, t, d) {
      AdmittedIs(s0, s, d);
      SameAt(s0, s, t, d);
    }
    BoundFrom(s0, s, t);
  }

  lemma RecordsRead(p: PanelCode, q: PanelCode, c: Component)
    requires q == p.(records := q.records)
    ensures RunsLinked(q, c) == RunsLinked(p, c) && Live(q, c) == Live(p, c) && Digest(q, c) == Digest(p, c)
  {
  }

  /** A component admitted without code may have its new identity published. */
  lemma AddedAt(s0: State, s: State, t: State, c: Component)
    requires At(s0, s, c) && s0.a.incumbent[c].None?
    requires t.p.link == s.p.link && RunsLinked(t.p, c) == RunsLinked(s.p, c) && Live(t.p, c) == Live(s.p, c)
             && t.p.live == s.p.live
    requires c in t.a.incumbent && t.a.candidate == s.a.candidate && t.installs == s.installs
    requires t.a.incumbent[c] == s.a.incumbent[c]
             || (t.a.incumbent[c].Some? && c in s.a.candidate
                 && t.a.incumbent[c].value.digest == s.a.candidate[c].digest)
    ensures At(s0, t, c)
  {
    hide RunsLinked, Count, Live;
  }

  lemma AdmissionKeeps(s0: State, s: State, t: State, c: Component)
    requires Bound(s0, s) && c in s0.a.incumbent && s0.a.incumbent[c].None?
    requires t == s.(p := s.p.(records := t.p.records), a := s.a.(incumbent := t.a.incumbent, pending := t.a.pending))
    requires t.a.incumbent.Keys == s.a.incumbent.Keys
    requires forall d :: d in s.a.incumbent && d != c ==> t.a.incumbent[d] == s.a.incumbent[d]
    requires c in t.a.incumbent ==>
               t.a.incumbent[c] == s.a.incumbent[c]
               || (t.a.incumbent[c].Some? && c in s.a.candidate
                   && t.a.incumbent[c].value.digest == s.a.candidate[c].digest)
    requires t.a.pending <= s.a.pending + {c}
    ensures Bound(s0, t)
  {
    hide At, AllAdmitted, LinkUnitsLinked, WritesOverCandidate, InstallsCovered, RunsLinked, Live, Digest;
    forall d | d in s0.a.incumbent ensures At(s0, t, d) {
      AdmittedIs(s0, s, d);
      RecordsRead(s.p, t.p, d);
      if d == c { AddedAt(s0, s, t, c); } else { SameAt(s0, s, t, d); }
    }
    BoundFrom(s0, s, t);
  }

  lemma CompleteKeeps(s0: State, s: State, c: Component, cut: nat)
    requires Bound(s0, s) && c in s0.a.incumbent && s0.a.incumbent[c].None? && c in s.a.candidate
    ensures Bound(s0, Complete(s, c, cut).0)
  {
    hide Bound, Identify, Readable, Enroll;
    SeenKeeps(s0, s);
    SeenSameAdmission(s);
    IncumbentsKeyed(s0, s, c);
    var seen := Seen(s);
    if Readable(s.p) && Identify(s.p, c).Some? && Identify(s.p, c).value.digest == s.a.candidate[c].digest {
      AdmissionKeeps(s0, seen, Complete(s, c, if cut == 0 then 1 else cut).0, c);
    }
  }

  lemma IncumbentsKeyed(s0: State, s: State, c: Component)
    requires Bound(s0, s) && c in s0.a.incumbent
    ensures c in s.a.incumbent
  {
  }

  /** A unit that leaves a component where it was found. */
  lemma SameUnitKeeps(s0: State, s: State, c: Component, unit: UnitFile, both: bool)
    requires Bound(s0, s) && Had(s0, c)
    requires RunsLinked(WithUnit(s, c, unit, both).p, c) == RunsLinked(s.p, c)
    ensures Bound(s0, WithUnit(s, c, unit, both))
  {
    var t := WithUnit(s, c, unit, both);
    hide At, AllAdmitted, LinkUnitsLinked, WritesOverCandidate, InstallsCovered;
    forall d | d in s0.a.incumbent ensures At(s0, t, d) {
      AdmittedIs(s0, s, d);
      assert RunsLinked(t.p, d) == RunsLinked(s.p, d);
      SameAt(s0, s, t, d);
    }
    BoundFrom(s0, s, t);
  }

  lemma BundledAt(s0: State, s: State, c: Component, unit: UnitFile, both: bool)
    requires At(s0, s, c) && s0.a.incumbent[c].None? && !unit.linked
    requires s.a.incumbent[c].Some? || Identify(s.p, c).None?
    ensures At(s0, WithUnit(s, c, unit, both), c)
  {
  }

  lemma BundledUnitKeeps(s0: State, s: State, c: Component, unit: UnitFile, both: bool)
    requires Bound(s0, s) && c in s0.a.incumbent && s0.a.incumbent[c].None? && !unit.linked
    requires c in s.a.incumbent && (s.a.incumbent[c].Some? || Identify(s.p, c).None?)
    ensures Bound(s0, WithUnit(s, c, unit, both))
  {
    var t := WithUnit(s, c, unit, both);
    hide At, AllAdmitted, LinkUnitsLinked, WritesOverCandidate, InstallsCovered;
    forall d | d in s0.a.incumbent ensures At(s0, t, d) {
      AdmittedIs(s0, s, d);
      if d == c {
        BundledAt(s0, s, c, unit, both);
      } else {
        assert RunsLinked(t.p, d) == RunsLinked(s.p, d);
        SameAt(s0, s, t, d);
      }
    }
    BoundFrom(s0, s, t);
  }

  lemma LogKeeps(s0: State, s: State, w: UnitWrite)
    requires Bound(s0, s) && w.component in s.a.candidate
    requires w.over.Some? ==> w.over.value == s.a.candidate[w.component].digest
    ensures Bound(s0, s.(unitWrites := s.unitWrites + [w]))
  {
    var t := s.(unitWrites := s.unitWrites + [w]);
    hide AllAdmitted, LinkUnitsLinked;
  }

  lemma DeploymentKeeps(s0: State, s: State, deployment: Option<string>)
    requires Bound(s0, s)
    ensures Bound(s0, WithDeployment(s, deployment))
  {
    var t := WithDeployment(s, deployment);
    hide At, AllAdmitted, LinkUnitsLinked, WritesOverCandidate, InstallsCovered;
    forall d | d in s0.a.incumbent ensures At(s0, t, d) {
      AdmittedIs(s0, s, d);
      SameAt(s0, s, t, d);
    }
    BoundFrom(s0, s, t);
  }

  lemma RefreshKeeps(s0: State, s: State, deployment: Option<string>)
    requires Bound(s0, s)
    ensures Bound(s0, Refresh(s, deployment).0)
  {
    hide At, AllAdmitted, LinkUnitsLinked, WritesOverCandidate, InstallsCovered, Readable, Seen, Identify;
    SeenKeeps(s0, s);
    SeenSameAdmission(s);
    var u := Seen(s);
    var t := Refresh(s, deployment).0;
    if t != s && t != u {
      forall d | d in s0.a.incumbent ensures At(s0, t, d) {
        AdmittedIs(s0, u, d);
        SameAt(s0, u, t, d);
      }
      BoundFrom(s0, u, t);
    }
  }

  lemma SeenSameAdmission(s: State)
    ensures Seen(s).a == s.a && Seen(s).installs == s.installs && Seen(s).unitWrites == s.unitWrites
  {
  }

  // ----- the writers -----

  lemma DeployKeeps(s0: State, s: State, c: Component, version: Version, cut: nat)
    requires Bound(s0, s)
    ensures Bound(s0, Deploy(s, c, version, cut).0)
  {
    hide Bound, Identify, Readable, Enroll, Complete;
    SeenKeeps(s0, s);
    SeenSameAdmission(s);
    if Guarded(s, c) {
      var g := Seen(s);
      GuardedSeen(s, c);
      if g.a.changes[c] && CodeChangeAllowed(g, c) && version == g.a.candidate[c].version && cut > 0 {
        var swapped := Swapped(g, c);
        SwapKeeps(s0, g, c);
        AbsentAtFirst(s0, g, c);
        VersionKeeps(s0, swapped, c);
        var written := Versioned(swapped, c);
        var marked := written.(a := g.a.(pending := g.a.pending + {c}));
        AdmissionKeeps(s0, written, marked, c);
        if cut > 2 { CompleteKeeps(s0, marked, c, cut - 3); }
      }
    }
  }

  /** Reading again right after the guard shows the same panel. */
  lemma GuardedSeen(s: State, c: Component)
    requires Guarded(s, c)
    ensures Guarded(Seen(s), c)
  {
    forall d: Component
      ensures Identify(Seen(s).p, d) == Identify(s.p, d) && Live(Seen(s).p, d) == Live(s.p, d)
    {
      EnrollReads(s.p, d);
    }
  }

  /** A policy that allows a code change does so only for a component admitted without code. */
  lemma AbsentAtFirst(s0: State, s: State, c: Component)
    requires Bound(s0, s) && Guarded(s, c)
             && (CodeChangeAllowed(s, c) || (s.a.changes[c] && !Keeps(s, c) && HasCandidateCode(s, c)))
    ensures c in s0.a.incumbent && s0.a.incumbent[c].None?
  {
    hide LinkUnitsLinked, WritesOverCandidate, InstallsCovered, Identify, Readable;
    assert c in s0.a.incumbent;
    AdmittedIs(s0, s, c);
  }

  lemma PreserveKeeps(s0: State, s: State, c: Component, fallback: Option<UnitFile>, cut: nat)
    requires Bound(s0, s) && Guarded(s, c) && s.a.incumbent[c].Some? && Had(s0, c)
    requires fallback.Some? ==> !fallback.value.linked && s.a.incumbent[c].value.digest == s.a.candidate[c].digest
    ensures Bound(s0, Preserve(s, c, fallback, cut).0)
  {
    hide Bound, Readable, Enroll;
    var unit := PreservedUnit(s, c, fallback);
    if unit.Some? && cut > 0 {
      var logged := if PreservedUnit(s, c, None).None?
        then s.(unitWrites := s.unitWrites + [UnitWrite(c, Digest(s.p, c))]) else s;
      if logged != s { LogKeeps(s0, s, UnitWrite(c, Digest(s.p, c))); }
      LinkedUnits(s0, s);
      SameUnitKeeps(s0, logged, c, unit.value, cut != 1);
    }
  }

  lemma LinkedUnits(s0: State, s: State)
    requires Bound(s0, s)
    ensures LinkUnitsLinked(s.p)
  {
  }

  lemma SelectBundledKeeps(s0: State, s: State, c: Component, unit: UnitFile, cut: nat)
    requires Bound(s0, s) && Guarded(s, c) && c in s0.a.incumbent && s0.a.incumbent[c].None? && !unit.linked
    ensures Bound(s0, SelectBundled(s, c, unit, cut).0)
  {
    hide Bound, Readable, Enroll, Complete;
    if cut > 0 {
      var logged := s.(unitWrites := s.unitWrites + [UnitWrite(c, Digest(s.p, c))]);
      IncumbentIsCandidate(s0, s, c);
      LogKeeps(s0, s, UnitWrite(c, Digest(s.p, c)));
      BundledUnitKeeps(s0, logged, c, unit, cut != 1);
      if cut > 1 && c in s.a.pending { CompleteKeeps(s0, WithUnit(logged, c, unit, true), c, cut - 2); }
    }
  }

  lemma IncumbentIsCandidate(s0: State, s: State, c: Component)
    requires Bound(s0, s) && c in s0.a.incumbent && s0.a.incumbent[c].None?
    ensures c in s.a.incumbent && c in s.a.candidate
    ensures s.a.incumbent[c].Some? ==> s.a.incumbent[c].value.digest == s.a.candidate[c].digest
  {
    AdmittedIs(s0, s, c);
  }

  lemma KeptHad(s0: State, s: State, c: Component)
    requires Bound(s0, s) && Guarded(s, c) && s.a.incumbent[c].Some? && (Keeps(s, c) || !s.a.changes[c])
    ensures Had(s0, c)
    ensures !s.a.changes[c] ==> s.a.incumbent[c].value.digest == s.a.candidate[c].digest
  {
    hide LinkUnitsLinked, WritesOverCandidate, InstallsCovered, Identify, Readable;
    AdmittedIs(s0, s, c);
  }

  lemma EnsureUnitKeeps(s0: State, s: State, c: Component, unit: UnitFile, cut: nat)
    requires Bound(s0, s) && !unit.linked
    ensures Bound(s0, EnsureUnit(s, c, unit, cut).0)
  {
    hide Bound, Identify, Readable, Enroll, Preserve, SelectBundled, PreservedUnit;
    SeenKeeps(s0, s);
    SeenSameAdmission(s);
    if Guarded(s, c) {
      var g := Seen(s);
      GuardedSeen(s, c);
      if Keeps(g, c) {
        KeptHad(s0, g, c);
        PreserveKeeps(s0, g, c, None, cut);
      } else if !g.a.changes[c] {
        if g.a.incumbent[c].Some? {
          KeptHad(s0, g, c);
          PreserveKeeps(s0, g, c, Some(unit), cut);
        }
      } else if HasCandidateCode(g, c) {
        AbsentAtFirst(s0, g, c);
        SelectBundledKeeps(s0, g, c, unit, cut);
      }
    }
  }

  lemma SelectConfiguredKeeps(s0: State, s: State, unit: UnitFile, deployment: Option<string>, cut: nat)
    requires Bound(s0, s) && Guarded(s, Bridge) && Bridge in s0.a.incumbent && s0.a.incumbent[Bridge].None?
             && !unit.linked
    ensures Bound(s0, SelectConfigured(s, unit, deployment, cut).0)
  {
    hide Bound, Readable, Enroll, Complete, Refresh;
    if cut > 0 {
      var logged := s.(unitWrites := s.unitWrites + [UnitWrite(Bridge, Digest(s.p, Bridge))]);
      IncumbentIsCandidate(s0, s, Bridge);
      LogKeeps(s0, s, UnitWrite(Bridge, Digest(s.p, Bridge)));
      BundledUnitKeeps(s0, logged, Bridge, unit, false);
      BundledUnitKeeps(s0, logged, Bridge, unit, true);
      DeploymentKeeps(s0, WithUnit(logged, Bridge, unit, false), deployment);
      DeploymentKeeps(s0, WithUnit(logged, Bridge, unit, true), deployment);
      var written := WithDeployment(WithUnit(logged, Bridge, unit, true), deployment);
      RefreshKeeps(s0, written, deployment);
      if cut > 3 {
        CompleteKeeps(s0, written, Bridge, cut - 4);
        RefreshKeeps(s0, Complete(written, Bridge, cut - 4).0, deployment);
      }
    }
  }

  lemma PreserveConfiguredKeeps(s0: State, s: State, fallback: Option<UnitFile>, deployment: Option<string>, cut: nat,
      envCut: nat)
    requires Bound(s0, s) && Guarded(s, Bridge) && s.a.incumbent[Bridge].Some? && Had(s0, Bridge)
    requires fallback.Some? ==>
               !fallback.value.linked && s.a.incumbent[Bridge].value.digest == s.a.candidate[Bridge].digest
    ensures Bound(s0, PreserveConfigured(s, fallback, deployment, cut, envCut).0)
  {
    hide Bound, Readable, Enroll, Preserve, Refresh, Identify;
    PreserveKeeps(s0, s, Bridge, fallback, cut);
    var kept := Preserve(s, Bridge, fallback, cut).0;
    DeploymentKeeps(s0, kept, deployment);
    RefreshKeeps(s0, WithDeployment(kept, deployment), deployment);
  }

  lemma EnsureConfigsKeeps(s0: State, s: State, unit: UnitFile, env: Option<string>, cut: nat, envCut: nat)
    requires Bound(s0, s) && !unit.linked
    ensures Bound(s0, EnsureConfigs(s, unit, env, cut, envCut).0)
  {
    hide Bound, Identify, Readable, Enroll, PreserveConfigured, SelectConfigured;
    SeenKeeps(s0, s);
    SeenSameAdmission(s);
    if Guarded(s, Bridge) {
      var g := Seen(s);
      GuardedSeen(s, Bridge);
      var deployment := NewDeployment(g, env);
      if Keeps(g, Bridge) {
        KeptHad(s0, g, Bridge);
        PreserveConfiguredKeeps(s0, g, None, deployment, cut, envCut);
      } else if HasCandidateCode(g, Bridge) {
        if g.a.changes[Bridge] {
          AbsentAtFirst(s0, g, Bridge);
          SelectConfiguredKeeps(s0, g, unit, deployment, cut);
        } else if g.a.incumbent[Bridge].Some? {
          KeptHad(s0, g, Bridge);
          PreserveConfiguredKeeps(s0, g, Some(unit), deployment, cut, envCut);
        }
      }
    }
  }

  lemma {:induction false} WriteAllKeeps(s0: State, s: State, calls: seq<Call>)
    requires Bound(s0, s) && BundledUnitsFixed(calls)
    ensures Bound(s0, WriteAll(s, calls))
    decreases |calls|
  {
    hide Bound, Deploy, EnsureUnit, EnsureConfigs;
    if calls != [] {
      match calls[0] {
        case CallDeploy(c, version, cut) => DeployKeeps(s0, s, c, version, cut);
        case CallUnit(c, unit, cut) => EnsureUnitKeeps(s0, s, c, unit, cut);
        case CallConfigs(unit, env, cut, envCut) => EnsureConfigsKeeps(s0, s, unit, env, cut, envCut);
      }
      WriteAllKeeps(s0, Write(s, calls[0]).0, calls[1..]);
    }
  }

  // ----- what the policy bounds -----

  lemma ConsumedReads(p: PanelCode, consumed: set<Uuid>, c: Component)
    ensures var q := p.(consumed := consumed);
            Live(q, c) == Live(p, c) && Identify(q, c) == Identify(p, c) && RunsLinked(q, c) == RunsLinked(p, c)
  {
    hide Readable, Enroll, OldLabel;
  }

  /** Beginning a transaction shows the panel as it was. */
  lemma BeginReads(p: PanelCode, plan: Plan, c: Component)
    requires Admissible(p, plan)
    ensures var q := Begin(p, plan).p;
            Live(q, c) == Live(p, c) && Identify(q, c) == Identify(p, c) && RunsLinked(q, c) == RunsLinked(p, c)
            && (Live(q, c).None? ==> c !in q.records)
    ensures var q := Begin(p, plan).p; q == p.(records := q.records, consumed := q.consumed)
  {
    hide Enroll, Live, Identify, RunsLinked, Admissible, AdmitIdentity, Incumbents;
    EnrollReads(p, c);
    EnrollIs(p, c);
    ConsumedReads(Enroll(p), Begin(p, plan).p.consumed, c);
  }

  lemma BeginAt(p: PanelCode, plan: Plan, c: Component)
    requires Admissible(p, plan) && c in plan.Chosen()
    ensures At(Begin(p, plan), Begin(p, plan), c) && AdmittedAs(Begin(p, plan), c)
    ensures c in plan.bundle && Begin(p, plan).a.candidate[c] == plan.bundle[c]
            && Begin(p, plan).a.incumbent[c] == Identify(p, c)
  {
    hide Enroll, Readable, KnownOrdinal;
    BeginReads(p, plan, c);
    hide IsPreOrdinalUpgrade;
    BeginAdmission(p, plan);
  }

  lemma BeginAdmission(p: PanelCode, plan: Plan)
    requires Admissible(p, plan)
    ensures var a := Begin(p, plan).a;
            a.candidate == Candidates(plan) && a.incumbent == Incumbents(p, plan.Chosen()) && a.pending == {}
              && a.active
            && a.policy == plan.policy && a.changes.Keys == plan.Chosen()
            && (forall c :: c in plan.Chosen() ==>
                  a.changes[c] == (AdmitIdentity(Identify(p, c), plan.bundle[c]) != Unchanged))
    ensures Begin(p, plan).installs == [] && Begin(p, plan).unitWrites == []
  {
  }

  lemma BeginIsBound(p: PanelCode, plan: Plan)
    requires Admissible(p, plan) && LinkUnitsLinked(p) && !plan.policy.Admit?
    ensures Bound(Begin(p, plan), Begin(p, plan))
  {
    hide At, AdmittedAs, Identify, Readable, Begin, AdmitIdentity;
    var s := Begin(p, plan);
    BeginAdmission(p, plan);
    BeginReads(p, plan, Bridge);
    forall c | c in s.a.incumbent ensures At(s, s, c) && AdmittedAs(s, c) { BeginAt(p, plan, c); }
  }

  /**
   * For every sequence of writers, each of them completed or cut anywhere, under a policy that does
   * not admit changes: code found installed keeps its digest and is never written; a bundled unit is
   * written only where no code runs or exactly the bundle's does; code is installed only where there was
   * none, never when frozen, and at most once: unless a link hides it, which a complete release never does.
   */
  lemma PolicyBounds(p: PanelCode, plan: Plan, calls: seq<Call>)
    requires Admissible(p, plan) && LinkUnitsLinked(p) && BundledUnitsFixed(calls) && !plan.policy.Admit?
    ensures var s := WriteAll(Begin(p, plan), calls);
            && (forall c :: c in plan.Chosen() && Live(p, c).Some? ==>
                  Live(s.p, c).Some? && Live(s.p, c).value.digest == Live(p, c).value.digest
                    && Count(s.installs, c) == 0)
            && (forall i :: 0 <= i < |s.unitWrites| ==>
                  s.unitWrites[i].component in plan.Chosen()
                  && (s.unitWrites[i].over.Some? ==>
                        s.unitWrites[i].over.value == plan.bundle[s.unitWrites[i].component].digest))
            && (forall i :: 0 <= i < |s.installs| ==> s.installs[i] in plan.Chosen())
            && (plan.policy.Frozen? ==> forall c :: c in plan.Chosen() ==> Count(s.installs, c) == 0)
            && (forall c :: c in plan.Chosen() && Live(p, c).None? && !Hides(p, c) ==> Count(s.installs, c) <= 1)
            && (LinkComplete(p) ==> forall c :: c in plan.Chosen() && Live(p, c).None? ==> Count(s.installs, c) <= 1)
  {
    hide Bound, Admissible, At, LinkUnitsLinked, BundledUnitsFixed;
    var s0 := Begin(p, plan);
    BeginIsBound(p, plan);
    WriteAllKeeps(s0, s0, calls);
    var s := WriteAll(s0, calls);
    BoundSays(s0, s);
    forall c | c in plan.Chosen()
      ensures Live(p, c).Some? ==>
                Live(s.p, c).Some? && Live(s.p, c).value.digest == Live(p, c).value.digest && Count(s.installs, c) == 0
      ensures plan.policy.Frozen? ==> Count(s.installs, c) == 0
      ensures Live(p, c).None? && (LinkComplete(p) || !Hides(p, c)) ==> Count(s.installs, c) <= 1
    {
      if LinkComplete(p) { CompleteHidesNothing(p, c); }
      EnrollReads(p, c);
      AtSays(s0, s, c);
    }
  }

  lemma AtSays(s0: State, s: State, c: Component)
    requires At(s0, s, c)
    ensures s0.a.incumbent[c].Some? ==>
              Live(s.p, c).Some? && Live(s.p, c).value.digest == s0.a.incumbent[c].value.digest
                && Count(s.installs, c) == 0
    ensures s0.a.incumbent[c].None? && s0.a.policy.Frozen? ==> Count(s.installs, c) == 0
    ensures s0.a.incumbent[c].None? && !Hides(s0.p, c) ==> Count(s.installs, c) <= 1
  {
  }

  lemma BoundSays(s0: State, s: State)
    requires Bound(s0, s)
    ensures AllAt(s0, s) && InstallsCovered(s0, s) && WritesOverCandidate(s) && s.a.candidate == s0.a.candidate
  {
  }

  /** A transaction that sees nothing where fixed code may already be. */
  predicate Hidden(s: State, c: Component) {
    Guarded(s, c) && Hides(s.p, c) && s.a.incumbent[c].None? && s.a.changes[c] && s.a.policy.Bootstrap?
  }

  /** What is deployed under a link that hides it shows nowhere. */
  lemma DeployedUnseen(g: State, c: Component, d: Component)
    requires Hides(g.p, c) && Live(g.p, c).None? && c in g.a.candidate
    ensures var q := Versioned(Swapped(g, c), c).p;
            Live(q, d) == Live(g.p, d) && Identify(q, d) == Identify(g.p, d) && Hides(q, c) && q.records == g.p.records
  {
    hide OldBridge, Live, RunsLinked, Label, Hides, Readable;
    DeployedHidden(g, c);
    DeployedOldBridge(g, c);
    if d != c { DeployedBeside(g, c, d); }
  }

  lemma DeployedHidden(g: State, c: Component)
    requires Hides(g.p, c) && Live(g.p, c).None? && c in g.a.candidate
    ensures var q := Versioned(Swapped(g, c), c).p;
            Hides(q, c) && Live(q, c).None? && (c == Bridge ==> RunsLinked(g.p, c))
  {
  }

  lemma DeployedBeside(g: State, c: Component, d: Component)
    requires c != d && c in g.a.candidate && OldBridge(Versioned(Swapped(g, c), c).p) == OldBridge(g.p)
    requires c == Bridge ==> !OldBridge(g.p)
    ensures var q := Versioned(Swapped(g, c), c).p; Live(q, d) == Live(g.p, d) && Identify(q, d) == Identify(g.p, d)
  {
    hide Live, RunsLinked;
    DeployedApart(g, c, d);
  }

  lemma DeployedApart(g: State, c: Component, d: Component)
    requires c != d && c in g.a.candidate
    ensures var q := Versioned(Swapped(g, c), c).p;
            Live(q, d) == Live(g.p, d) && RunsLinked(q, d) == RunsLinked(g.p, d)
  {
    assert RunsLinked(Versioned(Swapped(g, c), c).p, d) == RunsLinked(g.p, d);
  }

  lemma DeployedOldBridge(g: State, c: Component)
    requires (c == Bridge ==> RunsLinked(g.p, c)) && c in g.a.candidate
    ensures OldBridge(Versioned(Swapped(g, c), c).p) == OldBridge(g.p) && (c == Bridge ==> !OldBridge(g.p))
  {
    assert RunsLinked(Versioned(Swapped(g, c), c).p, Bridge) == RunsLinked(g.p, Bridge);
  }

  /** Reading the same everywhere, a transaction stays as guarded, and as blind, as it was. */
  lemma SameReadingHidden(g: State, t: State, c: Component)
    requires Hidden(g, c) && t.a == g.a.(pending := t.a.pending) && Hides(t.p, c) && t.p.records == g.p.records
    requires forall d: Component :: Identify(t.p, d) == Identify(g.p, d) && Live(t.p, d) == Live(g.p, d)
    ensures Hidden(t, c)
  {
    hide Identify, Live, RunsLinked;
  }

  lemma SeenHidden(s: State, c: Component)
    requires Hidden(s, c)
    ensures Hidden(Seen(s), c)
  {
    GuardedSeen(s, c);
    EnrollReads(s.p, c);
    hide Identify, Enroll;
  }

  lemma HiddenDeploys(s: State, c: Component)
    requires Hidden(s, c)
    ensures var t := Deploy(s, c, s.a.candidate[c].version, 3).0;
            Hidden(t, c) && t.installs == s.installs + [c] && t.a.candidate == s.a.candidate
  {
    hide Identify, Enroll, Live, RunsLinked, Readable, Same, Hides;
    SeenHidden(s, c);
    SeenSameAdmission(s);
    var g := Seen(s);
    var written := Versioned(Swapped(g, c), c);
    var marked := written.(a := g.a.(pending := g.a.pending + {c}));
    HiddenUnseen(g, c);
    forall d: Component
      ensures Live(marked.p, d) == Live(g.p, d) && Identify(marked.p, d) == Identify(g.p, d) && Hides(marked.p, c)
    {
      DeployedUnseen(g, c, d);
    }
    SameReadingHidden(g, marked, c);
    SeenHidden(marked, c);
    SeenSameAdmission(marked);
    HiddenUnseen(marked, c);
  }

  lemma HiddenUnseen(s: State, c: Component)
    requires Hidden(s, c)
    ensures Identify(s.p, c).None? && Live(s.p, c).None? && Readable(s.p) && Guarded(s, c) && Hides(s.p, c)
  {
    hide Readable;
  }

  /** The link condition is exact: when it hides a component, two bootstrap deploys install it twice. */
  lemma HiddenInstallsTwice(p: PanelCode, plan: Plan, c: Component)
    requires Admissible(p, plan) && plan.policy.Bootstrap? && c in plan.Chosen() && Hides(p, c) && Live(p, c).None?
    ensures var deploy := CallDeploy(c, plan.bundle[c].version, 3);
            Count(WriteAll(Begin(p, plan), [deploy, deploy]).installs, c) == 2
  {
    hide Deploy, Hidden, Begin;
    var deploy := CallDeploy(c, plan.bundle[c].version, 3);
    var s0 := Begin(p, plan);
    BegunHidden(p, plan, c);
    HiddenDeploys(s0, c);
    var s1 := Write(s0, deploy).0;
    HiddenDeploys(s1, c);
    var s2 := Write(s1, deploy).0;
    CountAppend([c], c, c);
    assert [deploy, deploy][1..] == [deploy] && [deploy][1..] == [];
    assert WriteAll(s2, []) == s2;
    assert WriteAll(s1, [deploy]) == s2;
    assert s2.installs == [c] + [c];
    assert Count([c], c) == 1;
  }

  lemma BegunHidden(p: PanelCode, plan: Plan, c: Component)
    requires Admissible(p, plan) && plan.policy.Bootstrap? && c in plan.Chosen() && Hides(p, c) && Live(p, c).None?
    ensures Hidden(Begin(p, plan), c) && Begin(p, plan).a.candidate[c] == plan.bundle[c]
            && Begin(p, plan).installs == []
  {
    hide Begin, Identify, AdmitIdentity, Live;
    BeginAdmission(p, plan);
    BeginAt(p, plan, c);
    NothingSeen(p, c);
    forall d: Component
      ensures Identify(Begin(p, plan).p, d) == Identify(p, d)
              && (Live(Begin(p, plan).p, d).None? ==> d !in Begin(p, plan).p.records)
    {
      BeginReads(p, plan, d);
    }
    BeginReads(p, plan, c);
    AdmitsNothing(plan.bundle[c]);
  }

  lemma NothingSeen(p: PanelCode, c: Component)
    requires Live(p, c).None?
    ensures Identify(p, c) == None
  {
  }

  lemma AdmitsNothing(candidate: Identity)
    ensures AdmitIdentity(None, candidate) == Change
  {
  }
}
