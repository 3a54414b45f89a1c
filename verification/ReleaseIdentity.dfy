/** The release identity policy: ordinals order releases, digests only tell them apart. */
module ReleaseIdentity {
  import opened Common

  /** A version string, read as a strict release when it is one. */
  datatype Version = Strict(major: nat, minor: nat, patch: nat) | Other(text: string)

  const FIRST_ORDINAL_RELEASE: Version := Strict(0, 11, 0)

  predicate Earlier(a: Version, b: Version)
    requires a.Strict? && b.Strict?
  {
    a.major < b.major || (a.major == b.major && (a.minor < b.minor || (a.minor == b.minor && a.patch < b.patch)))
  }

  /** A version from before the first release that carried an ordinal. */
  predicate OldLabel(version: Version) { version.Strict? && Earlier(version, FIRST_ORDINAL_RELEASE) }

  datatype Place = Bundled | Fixed | Linked

  datatype Identity = Identity(
    version: Version,
    ordinal: Option<nat>,
    digest: nat,
    deployment: Option<string>,
    place: Place)

  /** Recognize only releases before the first bundle that carried an ordinal. */
  predicate IsPreOrdinalUpgrade(incumbent: Option<Identity>, candidate: Identity) {
    && incumbent.Some?
    && incumbent.value.digest != candidate.digest
    && incumbent.value.ordinal.None?
    && OldLabel(incumbent.value.version)
    && candidate.ordinal.Some?
    && candidate.version.Strict? && !Earlier(candidate.version, FIRST_ORDINAL_RELEASE)
  }

  datatype Verdict = Unchanged | Change | Blocked

  function AdmitIdentity(incumbent: Option<Identity>, candidate: Identity): Verdict {
    if incumbent.None? then Change
    else if incumbent.value.digest == candidate.digest then Unchanged
    else if incumbent.value.ordinal.Some? && candidate.ordinal.Some?
      && candidate.ordinal.value > incumbent.value.ordinal.value then Change
    else if IsPreOrdinalUpgrade(incumbent, candidate) then Change
    else Blocked
  }

  /** A chain of admitted changes. */
  ghost predicate Chain(chain: seq<Identity>) {
    forall i :: 0 < i < |chain| ==> AdmitIdentity(Some(chain[i - 1]), chain[i]).Change?
  }

  /** Both ordinals are known, and the second is the higher one. */
  predicate Rises(a: Identity, b: Identity) {
    a.ordinal.Some? && b.ordinal.Some? && a.ordinal.value < b.ordinal.value
  }

  /** From before 0.11, without an ordinal, to 0.11 or later, with one. */
  predicate FirstOrdinal(a: Identity, b: Identity) {
    && a.ordinal.None? && a.version.Strict? && a.version.major == 0 && a.version.minor < 11
    && b.ordinal.Some? && b.version.Strict? && (b.version.major > 0 || b.version.minor >= 11)
  }

  lemma StepIs(a: Identity, b: Identity)
    ensures AdmitIdentity(Some(a), b).Change? <==> a.digest != b.digest && (Rises(a, b) || FirstOrdinal(a, b))
  {
  }

  /** From some place on every ordinal is above all the earlier ones. */
  ghost predicate Rising(chain: seq<Identity>, from: nat) {
    forall i, j :: from <= i < j < |chain| ==> Rises(chain[i], chain[j])
  }

  lemma {:induction false} ChainRises(chain: seq<Identity>, i: nat, j: nat)
    requires Chain(chain) && i < j < |chain| && chain[i].ordinal.Some?
    ensures chain[j].ordinal.Some? && chain[i].ordinal.value < chain[j].ordinal.value
    ensures !IsPreOrdinalUpgrade(Some(chain[i]), chain[j])
  {
    if i + 1 < j { ChainRises(chain, i, j - 1); }
    assert AdmitIdentity(Some(chain[j - 1]), chain[j]).Change?;
  }

  /** Exactly which histories admission lets happen: code differs at every step, the first step may be the one
      from before the first ordinal, and apart from that step every ordinal rises above all before it. */
  lemma ChainIs(chain: seq<Identity>)
    ensures Chain(chain) <==>
              (forall i :: 0 < i < |chain| ==> chain[i - 1].digest != chain[i].digest)
              && (Rising(chain, 0) || (|chain| > 1 && FirstOrdinal(chain[0], chain[1]) && Rising(chain, 1)))
  {
    forall i | 0 < i < |chain|
      ensures AdmitIdentity(Some(chain[i - 1]), chain[i]).Change? <==>
                chain[i - 1].digest != chain[i].digest
                && (Rises(chain[i - 1], chain[i]) || FirstOrdinal(chain[i - 1], chain[i]))
    {
      StepIs(chain[i - 1], chain[i]);
    }
    if Chain(chain) && |chain| > 1 {
      assert AdmitIdentity(Some(chain[0]), chain[1]).Change?;
      if chain[0].ordinal.Some? { ChainRisesFrom(chain, 0); } else { ChainRisesFrom(chain, 1); }
    }
  }

  lemma ChainRisesFrom(chain: seq<Identity>, from: nat)
    requires Chain(chain) && from < |chain| && chain[from].ordinal.Some?
    ensures Rising(chain, from)
  {
    forall i, j | from <= i < j < |chain| ensures Rises(chain[i], chain[j]) {
      if from < i { ChainRises(chain, from, i); }
      ChainRises(chain, i, j);
    }
  }

  /** Code that was deployed once never comes back along admitted changes. */
  lemma NeverBack(chain: seq<Identity>, i: nat, j: nat)
    requires Chain(chain) && i < j < |chain| && chain[i].ordinal.Some?
    ensures chain[i] != chain[j]
  {
    ChainRises(chain, i, j);
  }
}
