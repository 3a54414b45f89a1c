/** The admission object and its writers as they run: each changes the panel and the admission in place. */
module ReleaseTransaction {
  import opened Common
  import opened ReleaseIdentity
  import opened ReleaseWriters

  class ReleaseTransaction {
    var panel: PanelCode
    var incumbent: map<Component, Option<Identity>>
    var pending: set<Component>
    var active: bool
    const candidate: map<Component, Identity>
    const changes: map<Component, bool>
    const transaction: Uuid
    const overridden: bool
    const policy: Policy
    ghost var installs: seq<Component>
    ghost var unitWrites: seq<UnitWrite>

    /** Open a transaction the admission accepts. */
    constructor (p: PanelCode, plan: Plan)
      requires Admissible(p, plan)
      ensures Now() == Begin(p, plan)
    {
      var s := Begin(p, plan);
      panel, incumbent, pending, active := s.p, s.a.incumbent, s.a.pending, s.a.active;
      candidate, changes, transaction := s.a.candidate, s.a.changes, s.a.transaction;
      overridden, policy := s.a.overridden, s.a.policy;
      installs, unitWrites := [], [];
    }

    ghost function Now(): State
      reads this
    {
      State(panel, Admission(candidate, incumbent, changes, transaction, overridden, pending, active, policy), installs,
        unitWrites)
    }

    /** Read the installed identities; reading enrolls, and a panel with recorded code missing is refused. */
    method ReadIdentities() returns (ok: bool)
      modifies this
      ensures Now() == Seen(old(Now())) && ok == Readable(old(panel))
    {
      ok := Readable(panel);
      if ok { panel := Enroll(panel); }
    }

    /** Revalidate before any write. */
    method Guard(c: Component) returns (ok: bool)
      modifies this
      ensures Now() == Seen(old(Now())) && ok == Guarded(old(Now()), c)
    {
      ghost var before := Now();
      ok := ReadIdentities();
      if ok {
        forall d: Component ensures Identify(panel, d) == Identify(old(panel), d) { EnrollReads(old(panel), d); }
      }
      ok := ok && active && c in changes && c in incumbent && c in candidate
            && (forall d :: d in incumbent ==> Identify(panel, d) == incumbent[d]);
    }

    /** Publish authority only after hashing the newly selected code. */
    method CompleteIdentity(c: Component, cut: nat) returns (outcome: Outcome)
      requires c in candidate
      modifies this
      ensures (Now(), outcome) == Complete(old(Now()), c, cut)
    {
      ghost var before := Now();
      EnrollReads(panel, c);
      var ok := ReadIdentities();
      if !ok { return Torn; }
      var identity := Identify(panel, c);
      if identity.None? || identity.value.digest != candidate[c].digest || cut == 0 { return Torn; }
      var published := identity.value.(ordinal := candidate[c].ordinal);
      panel := panel.(records := panel.records[c := published]);
      if cut == 1 { return Torn; }
      incumbent := incumbent[c := Some(published)];
      pending := pending - {c};
      outcome := Done;
    }

    /** The code tree: a watchdog's takes its version file and its staged unit along. */
    method SwapCode(c: Component)
      requires c in candidate
      modifies this
      ensures Now() == Swapped(old(Now()), c)
    {
      panel := panel.(fixed := panel.fixed[c := candidate[c].digest]);
      if c != Bridge { panel := panel.(versions := panel.versions - {c}, staged := panel.staged - {c}); }
      installs := installs + [c];
    }

    method WriteVersion(c: Component)
      requires c in candidate
      modifies this
      ensures Now() == Versioned(old(Now()), c)
    {
      panel := panel.(versions := panel.versions[c := candidate[c].version]);
    }

    /** Swap in the bundle's code, if the policy admits the change. */
    method DeployPayload(c: Component, version: Version, cut: nat) returns (outcome: Outcome)
      modifies this
      ensures (Now(), outcome) == Deploy(old(Now()), c, version, cut)
    {
      hide Readable, Identify, Enroll, Complete, Same;
      var ok := Guard(c);
      SeenSame(old(Now()));
      if !ok { return Refused; }
      if !changes[c] { return Done; }
      if !(policy.Admit? || (policy.Bootstrap? && incumbent[c].None?)) || version != candidate[c].version || cut == 0 {
        return Refused;
      }
      SwapCode(c);
      if cut == 1 { return Torn; }
      WriteVersion(c);
      if cut == 2 { return Torn; }
      pending := pending + {c};
      if incumbent[c].None? || incumbent[c].value.place.Fixed? {
        outcome := CompleteIdentity(c, cut - 3);
      } else {
        outcome := Done;
      }
    }

    /** Go on with the unit that is there, or with the release's, the staged one, or the fallback. */
    method EnsurePreservedUnit(c: Component, fallback: Option<UnitFile>, cut: nat) returns (outcome: Outcome)
      requires c in incumbent && incumbent[c].Some?
      modifies this
      ensures (Now(), outcome) == Preserve(old(Now()), c, fallback, cut)
    {
      ghost var was := Now();
      var unit := fallback;
      if c in panel.live {
        unit := Some(panel.live[c]);
      } else if incumbent[c].value.place.Linked? {
        unit := if c in panel.linkUnits then Some(panel.linkUnits[c]) else None;
      } else if c in panel.staged {
        unit := Some(panel.staged[c]);
      }
      if unit.None? || cut == 0 { return Refused; }
      if PreservedUnit(was, c, None).None? { unitWrites := unitWrites + [UnitWrite(c, Digest(panel, c))]; }
      panel := panel.(live := panel.live[c := unit.value]);
      if cut == 1 { return Torn; }
      panel := panel.(staged := panel.staged[c := unit.value]);
      outcome := Done;
    }

    predicate KeepsIncumbent(c: Component)
      requires c in changes && c in incumbent && c in candidate
      reads this
    {
      !policy.Admit? && incumbent[c].Some? && changes[c] && c !in pending
        && incumbent[c].value.digest != candidate[c].digest
    }

    /** Write a watchdog's unit, never the bundled one over code that is not the bundle's. */
    method EnsureWatchdogUnit(c: Component, unit: UnitFile, cut: nat) returns (outcome: Outcome)
      modifies this
      ensures (Now(), outcome) == EnsureUnit(old(Now()), c, unit, cut)
    {
      hide Readable, Identify, Enroll, Complete, Preserve;
      var ok := Guard(c);
      if !ok { return Refused; }
      if KeepsIncumbent(c) {
        outcome := EnsurePreservedUnit(c, None, cut);
      } else if !changes[c] {
        if incumbent[c].None? { return Refused; }
        outcome := EnsurePreservedUnit(c, Some(unit), cut);
      } else if incumbent[c].Some? && c !in pending && incumbent[c].value.digest != candidate[c].digest {
        outcome := Refused;
      } else if cut == 0 {
        outcome := Refused;
      } else {
        unitWrites := unitWrites + [UnitWrite(c, Digest(panel, c))];
        panel := panel.(live := panel.live[c := unit]);
        if cut == 1 { return Torn; }
        panel := panel.(staged := panel.staged[c := unit]);
        if c in pending { outcome := CompleteIdentity(c, cut - 2); } else { outcome := Done; }
      }
    }

    /** Every admitted component must read the same but for the new correlation. */
    method RefreshCorrelation(deployment: Option<string>) returns (outcome: Outcome)
      modifies this
      ensures (Now(), outcome) == Refresh(old(Now()), deployment)
    {
      if deployment.None? { return Done; }
      ghost var before := Now();
      var expected := map c | c in incumbent ::
        (if incumbent[c].Some? then Some(incumbent[c].value.(deployment := deployment)) else None);
      forall d: Component ensures Identify(Enroll(panel), d) == Identify(panel, d) { EnrollReads(panel, d); }
      var ok := ReadIdentities();
      if ok && (forall c :: c in expected ==> Identify(panel, c) == expected[c]) {
        incumbent := expected;
        outcome := Done;
      } else {
        outcome := Torn;
      }
    }

    method KeepConfiguration(fallback: Option<UnitFile>, deployment: Option<string>, cut: nat, envCut: nat)
        returns (outcome: Outcome)
      requires Bridge in incumbent && incumbent[Bridge].Some?
      modifies this
      ensures (Now(), outcome) == PreserveConfigured(old(Now()), fallback, deployment, cut, envCut)
    {
      hide Readable, Identify, Preserve, Refresh;
      outcome := EnsurePreservedUnit(Bridge, fallback, cut);
      if !outcome.Done? { return; }
      if envCut == 0 { return Torn; }
      panel := panel.(deployment := deployment);
      if envCut == 1 { return Torn; }
      outcome := RefreshCorrelation(deployment);
    }

    method SelectConfiguration(unit: UnitFile, deployment: Option<string>, cut: nat) returns (outcome: Outcome)
      requires Bridge in candidate
      modifies this
      ensures (Now(), outcome) == SelectConfigured(old(Now()), unit, deployment, cut)
    {
      hide Readable, Identify, Complete, Refresh, Digest;
      if cut == 0 { return Refused; }
      unitWrites := unitWrites + [UnitWrite(Bridge, Digest(panel, Bridge))];
      panel := panel.(live := panel.live[Bridge := unit]);
      if cut == 1 { return Torn; }
      panel := panel.(deployment := deployment);
      if cut == 2 { return Torn; }
      panel := panel.(staged := panel.staged[Bridge := unit]);
      if cut == 3 { return Torn; }
      if Bridge in pending {
        outcome := CompleteIdentity(Bridge, cut - 4);
        if !outcome.Done? { return; }
      }
      outcome := RefreshCorrelation(deployment);
    }

    /** The bridge's unit and environment, under one correlation. */
    method EnsureConfiguration(unit: UnitFile, env: Option<string>, cut: nat, envCut: nat) returns (outcome: Outcome)
      modifies this
      ensures (Now(), outcome) == EnsureConfigs(old(Now()), unit, env, cut, envCut)
    {
      hide Readable, Identify, Enroll, Same, PreserveConfigured, SelectConfigured;
      var ok := Guard(Bridge);
      SeenSame(old(Now()));
      if !ok { return Refused; }
      var deployment := if env.None? && incumbent[Bridge].Some? then incumbent[Bridge].value.deployment else env;
      if KeepsIncumbent(Bridge) {
        outcome := KeepConfiguration(None, deployment, cut, envCut);
      } else if incumbent[Bridge].Some? && Bridge !in pending
        && incumbent[Bridge].value.digest != candidate[Bridge].digest {
        outcome := Refused;
      } else if changes[Bridge] {
        outcome := SelectConfiguration(unit, deployment, cut);
      } else if incumbent[Bridge].Some? {
        outcome := KeepConfiguration(Some(unit), deployment, cut, envCut);
      } else {
        outcome := Refused;
      }
    }
  }

  lemma SeenSame(s: State)
    ensures Seen(s).a == s.a && Seen(s).installs == s.installs && Seen(s).unitWrites == s.unitWrites
  {
  }
}
