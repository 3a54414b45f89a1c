/** A complete activation, from any panel, leaves exactly the candidate in place. */
module Activation {
  import opened Common
  import opened PanelState
  import opened PanelCommands
  import opened Rollback
  import opened Protocol

  /** Splitting a run of one list per item into its head and its tail. */
  lemma EachSplits<T>(f: T -> seq<Cmd>, items: seq<T>, p: Panel, q: Panel) returns (r: Panel)
    requires items != [] && Exec(Each(f, items), p) == Some(q)
    ensures Exec(f(items[0]), p) == Some(r) && Exec(Each(f, items[1..]), r) == Some(q)
  {
    ExecConcat(f(items[0]), Each(f, items[1..]), p);
    r := Exec(f(items[0]), p).value;
  }

  lemma ConcatSplits(a: seq<Cmd>, b: seq<Cmd>, p: Panel, q: Panel) returns (r: Panel)
    requires Exec(a + b, p) == Some(q)
    ensures Exec(a, p) == Some(r) && Exec(b, r) == Some(q)
  {
    ExecConcat(a, b, p);
    r := Exec(a, p).value;
  }

  /** The temporaries of other paths are left alone. */
  ghost predicate SameTempsBut(a: map<Temp, File>, b: map<Temp, File>, staged: StagedRelease, paths: seq<Owned>) {
    forall t: Temp :: !(t.path in paths && t == ActivationTemp(staged, t.path)) ==>
      (t in a <==> t in b) && (t in a ==> a[t] == b[t])
  }

  // ----- preparing -----

  lemma {:induction false} CopiesRun(staged: StagedRelease, paths: seq<Owned>, p: Panel, q: Panel)
    requires Exec(Each(Copy(staged), paths), p) == Some(q)
    ensures q == p.(temps := q.temps) && SameTempsBut(p.temps, q.temps, staged, paths)
    ensures paths != [] ==> staged.Dir() in p.releases
    ensures forall path :: path in paths ==>
              path in p.releases[staged.Dir()].files && ActivationTemp(staged, path) in q.temps
              && q.temps[ActivationTemp(staged, path)].content == p.releases[staged.Dir()].files[path]
  {
    if paths != [] {
      var r := EachSplits(Copy(staged), paths, p, q);
      Exec1(CopyTemp(ActivationTemp(staged, paths[0]), staged.Dir()), p);
      CopiesRun(staged, paths[1..], r, q);
    }
  }

  lemma {:induction false} ChmodsRun(staged: StagedRelease, paths: seq<Owned>, p: Panel, q: Panel)
    requires Exec(Each(Chmod(staged), paths), p) == Some(q)
    ensures q == p.(temps := q.temps) && SameTempsBut(p.temps, q.temps, staged, paths)
    ensures forall path :: path in paths ==>
              ActivationTemp(staged, path) in p.temps && ActivationTemp(staged, path) in q.temps
              && q.temps[ActivationTemp(staged, path)]
                 == p.temps[ActivationTemp(staged, path)].(mode := CandidateMode(path))
  {
    if paths != [] {
      var r := EachSplits(Chmod(staged), paths, p, q);
      Exec1(ChmodTemp(ActivationTemp(staged, paths[0]), CandidateMode(paths[0])), p);
      ChmodsRun(staged, paths[1..], r, q);
    }
  }

  /** Every owned file of the release is ready in a temporary, with its final mode. */
  ghost predicate Ready(p: Panel, staged: StagedRelease) {
    staged.Dir() in p.releases
    && forall path: Owned ::
         path in p.releases[staged.Dir()].files && ActivationTemp(staged, path) in p.temps
         && p.temps[ActivationTemp(staged, path)] == File(p.releases[staged.Dir()].files[path], CandidateMode(path))
  }

  lemma PrepareRuns(staged: StagedRelease, p: Panel, q: Panel)
    requires Exec(PrepareActivation(staged), p) == Some(q)
    ensures q == p.(temps := q.temps) && Ready(q, staged)
  {
    hide Exec, Each;
    var first := [CheckRelease(staged.Dir()), RemoveTemps(ActivationTemps(staged))];
    var r1 := ConcatSplits(first, Each(Copy(staged), OwnedFiles) + Each(Chmod(staged), OwnedFiles), p, q);
    var r2 := ConcatSplits(Each(Copy(staged), OwnedFiles), Each(Chmod(staged), OwnedFiles), r1, q);
    HeadRuns(staged, p, r1);
    CopiesRun(staged, OwnedFiles, r1, r2);
    ChmodsRun(staged, OwnedFiles, r2, q);
    forall path: Owned ensures path in OwnedFiles { EveryOwned(path); }
  }

  lemma HeadRuns(staged: StagedRelease, p: Panel, q: Panel)
    requires Exec([CheckRelease(staged.Dir()), RemoveTemps(ActivationTemps(staged))], p) == Some(q)
    ensures q == p.(temps := q.temps)
  {
    assert Apply(CheckRelease(staged.Dir()), p).Some?;
    Exec2(CheckRelease(staged.Dir()), RemoveTemps(ActivationTemps(staged)), p, p);
  }

  // ----- stopping -----

  lemma DisableRuns(staged: StagedRelease, c: Component, p: Panel)
    ensures Exec(DisableUnselected(staged)(c), p)
         == Some(p.(enabled := if c in staged.selected then p.enabled else p.enabled - {c}))
  {
    if c !in staged.selected { Exec1(Disable(c), p); }
  }

  lemma {:induction false} DisablesRun(staged: StagedRelease, services: seq<Component>, p: Panel, q: Panel)
    requires Exec(Each(DisableUnselected(staged), services), p) == Some(q)
    ensures q == p.(enabled := q.enabled)
    ensures forall c :: c in q.enabled ==> c in p.enabled && (c in services ==> c in staged.selected)
  {
    if services != [] {
      var r := EachSplits(DisableUnselected(staged), services, p, q);
      DisableRuns(staged, services[0], p);
      hide Exec, Each, DisableUnselected;
      DisablesRun(staged, services[1..], r, q);
    }
  }

  lemma EveryService(c: Component)
    ensures c in Services
  {
    match c
    case Bridge => assert Services[0] == c;
    case Wifi => assert Services[1] == c;
    case Bus => assert Services[2] == c;
  }

  lemma QuiesceActivationRuns(staged: StagedRelease, p: Panel, q: Panel)
    requires Exec(QuiesceForActivation(staged), p) == Some(q)
    ensures q == p.(enabled := q.enabled, active := {}) && q.enabled <= staged.selected
  {
    hide Exec, Each;
    var r := ConcatSplits(Each(StopEach(), Services), Each(DisableUnselected(staged), Services), p, q);
    StopsAll(p);
    DisablesRun(staged, Services, r, q);
    forall c: Component ensures c in Services { EveryService(c); }
  }

  // ----- committing -----

  predicate Distinct(paths: seq<Owned>) { forall i, j :: 0 <= i < j < |paths| ==> paths[i] != paths[j] }

  ghost predicate SelectedAt(p: Panel, q: Panel, staged: StagedRelease, paths: seq<Owned>, path: Owned) {
    if path in paths then
      if Installs(staged, path)
      then ActivationTemp(staged, path) in p.temps && path in q.files
        && q.files[path] == p.temps[ActivationTemp(staged, path)]
      else path !in q.files
    else (path in p.files <==> path in q.files) && (path in p.files ==> q.files[path] == p.files[path])
  }

  function Selected(p: Panel, staged: StagedRelease, path: Owned): Panel {
    var temp := ActivationTemp(staged, path);
    if !Installs(staged, path) then p.(files := p.files - {path}, temps := p.temps - {temp})
    else if temp in p.temps then p.(files := p.files[path := p.temps[temp]], temps := p.temps - {temp})
    else p
  }

  lemma SelectRuns(staged: StagedRelease, path: Owned, p: Panel, q: Panel)
    requires Exec(Select(staged)(path), p) == Some(q)
    ensures Installs(staged, path) ==> ActivationTemp(staged, path) in p.temps
    ensures q == Selected(p, staged, path)
  {
    var temp := ActivationTemp(staged, path);
    if Installs(staged, path) { Exec1(MoveTemp(temp), p); } else { Exec1(RemoveTempAndFile(temp), p); }
  }

  lemma SelectedBefore(p: Panel, q: Panel, staged: StagedRelease, first: Owned, rest: seq<Owned>, path: Owned)
    requires first !in rest && (Installs(staged, first) ==> ActivationTemp(staged, first) in p.temps)
    requires SelectedAt(Selected(p, staged, first), q, staged, rest, path)
    ensures SelectedAt(p, q, staged, [first] + rest, path)
  {
    assert path in [first] + rest <==> path == first || path in rest;
  }

  lemma {:induction false} SelectsRun(staged: StagedRelease, paths: seq<Owned>, p: Panel, q: Panel)
    requires Exec(Each(Select(staged), paths), p) == Some(q) && Distinct(paths)
    ensures q == p.(files := q.files, temps := q.temps)
    ensures forall path: Owned :: SelectedAt(p, q, staged, paths, path)
  {
    hide Select, SelectedAt, Installs;
    if paths == [] {
      forall path: Owned ensures SelectedAt(p, q, staged, paths, path) { NoneSelected(p, staged, path); }
    } else {
      var r := EachSplits(Select(staged), paths, p, q);
      hide Exec, Each;
      SelectRuns(staged, paths[0], p, r);
      SelectsRun(staged, paths[1..], r, q);
      assert [paths[0]] + paths[1..] == paths;
      forall path: Owned ensures SelectedAt(p, q, staged, paths, path) {
        SelectedBefore(p, q, staged, paths[0], paths[1..], path);
      }
    }
  }

  lemma NoneSelected(p: Panel, staged: StagedRelease, path: Owned)
    ensures SelectedAt(p, p, staged, [], path)
  {
  }

  predicate SameIdentity(p: Panel, q: Panel, c: Component) {
    (c in q.trees.identities <==> c in p.trees.identities)
    && (c in p.trees.identities ==> q.trees.identities[c] == p.trees.identities[c])
  }

  /** What identifying some services leaves of one component's identity. */
  predicate IdentifiedAt(p: Panel, q: Panel, staged: StagedRelease, ordinal: nat, services: seq<Component>,
      c: Component)
  {
    if c in services && c in staged.selected then c in q.trees.identities && q.trees.identities[c] == ordinal
    else SameIdentity(p, q, c)
  }

  lemma IdentifyRuns(staged: StagedRelease, ordinal: nat, c: Component, p: Panel, q: Panel)
    requires Exec(Identify(staged, ordinal)(c), p) == Some(q)
    ensures q == p.(trees := q.trees) && q.trees == p.trees.(identities := q.trees.identities)
    ensures q.trees.identities == if c in staged.selected then p.trees.identities[c := ordinal] else p.trees.identities
  {
    if c in staged.selected { Exec1(WriteIdentity(c, ordinal), p); }
  }

  lemma IdentifiedBefore(p: Panel, r: Panel, q: Panel, staged: StagedRelease, ordinal: nat, first: Component,
      rest: seq<Component>, c: Component)
    requires r.trees.identities ==
               if first in staged.selected then p.trees.identities[first := ordinal] else p.trees.identities
    requires IdentifiedAt(r, q, staged, ordinal, rest, c)
    ensures IdentifiedAt(p, q, staged, ordinal, [first] + rest, c)
  {
    assert c in [first] + rest <==> c == first || c in rest;
  }

  lemma {:induction false} IdentifiesRun(staged: StagedRelease, ordinal: nat, services: seq<Component>, p: Panel,
      q: Panel)
    requires Exec(Each(Identify(staged, ordinal), services), p) == Some(q)
    ensures q == p.(trees := q.trees) && q.trees == p.trees.(identities := q.trees.identities)
    ensures forall c: Component :: IdentifiedAt(p, q, staged, ordinal, services, c)
  {
    hide IdentifiedAt, Identify;
    if services == [] {
      forall c: Component ensures IdentifiedAt(p, q, staged, ordinal, services, c) {
        NoneIdentified(p, staged, ordinal, c);
      }
    } else {
      var r := EachSplits(Identify(staged, ordinal), services, p, q);
      hide Exec, Each;
      IdentifyRuns(staged, ordinal, services[0], p, r);
      IdentifiesRun(staged, ordinal, services[1..], r, q);
      assert [services[0]] + services[1..] == services;
      forall c: Component ensures IdentifiedAt(p, q, staged, ordinal, services, c) {
        IdentifiedBefore(p, r, q, staged, ordinal, services[0], services[1..], c);
      }
    }
  }

  lemma NoneIdentified(p: Panel, staged: StagedRelease, ordinal: nat, c: Component)
    ensures IdentifiedAt(p, p, staged, ordinal, [], c)
  {
  }

  /** The candidate's files and link are in place; services are not converged yet. */
  ghost predicate Linked(p: Panel, staged: StagedRelease) {
    && p.link == Some(staged.Dir()) && staged.Dir() in p.releases
    && (forall path: Owned :: path in p.files <==> Installs(staged, path))
    && (forall path: Owned :: Installs(staged, path) ==>
          path in p.releases[staged.Dir()].files
          && p.files[path] == File(p.releases[staged.Dir()].files[path], CandidateMode(path)))
  }

  /** Exactly the selected components carry the ordinal now; code and staged units are as they were. */
  predicate Identified(p: Panel, q: Panel, staged: StagedRelease, ordinal: nat) {
    && q.trees == p.trees.(identities := q.trees.identities)
    && forall c: Component ::
         if c in staged.selected then c in q.trees.identities && q.trees.identities[c] == ordinal
         else SameIdentity(p, q, c)
  }

  lemma EveryIdentified(p: Panel, r: Panel, q: Panel, staged: StagedRelease, ordinal: nat)
    requires r.trees == p.trees && q.trees == r.trees.(identities := q.trees.identities)
    requires forall c: Component :: IdentifiedAt(r, q, staged, ordinal, Services, c)
    ensures Identified(p, q, staged, ordinal)
  {
    forall c: Component
      ensures if c in staged.selected then c in q.trees.identities && q.trees.identities[c] == ordinal
              else SameIdentity(p, q, c)
    {
      EveryService(c);
      assert IdentifiedAt(r, q, staged, ordinal, Services, c);
    }
  }

  lemma CommitRuns(staged: StagedRelease, ordinal: nat, p: Panel, q: Panel)
    requires Exec(CommitActivation(staged, ordinal), p) == Some(q) && Ready(p, staged)
    ensures Linked(q, staged) && q.enabled == p.enabled && q.active == p.active && q.releases == p.releases
    ensures Identified(p, q, staged, ordinal)
  {
    hide Exec, Each, SwitchLink;
    var links := SwitchLink(staged, Activation, staged.Dir());
    var names := Each(Identify(staged, ordinal), Services);
    var r1 := ConcatSplits(Each(Select(staged), OwnedFiles), links + names, p, q);
    var r2 := ConcatSplits(links, names, r1, q);
    SelectsRun(staged, OwnedFiles, p, r1);
    SwitchLinkRuns(r1, staged, Activation, staged.Dir());
    IdentifiesRun(staged, ordinal, Services, r2, q);
    EveryIdentified(p, r2, q, staged, ordinal);
    forall path: Owned ensures (path in q.files <==> Installs(staged, path))
        && (Installs(staged, path) ==>
              path in q.releases[staged.Dir()].files
              && q.files[path] == File(q.releases[staged.Dir()].files[path], CandidateMode(path)))
    {
      EveryOwned(path);
      assert SelectedAt(p, r1, staged, OwnedFiles, path);
    }
  }

  // ----- converging -----

  lemma SelectedConverges(c: Component, p: Panel, q: Panel)
    requires Exec([Enable(c), Start(c), CheckConverged(c)], p) == Some(q)
    ensures q == Started(p.(enabled := p.enabled + {c}), c)
  {
    hide LaunchOf;
    var r := p.(enabled := p.enabled + {c});
    assert Apply(Enable(c), p).Some?;
    assert [Enable(c), Start(c), CheckConverged(c)][1..] == [Start(c), CheckConverged(c)];
    assert Apply(Start(c), r).Some?;
    Exec3(Enable(c), Start(c), CheckConverged(c), p, r, Started(r, c));
  }

  lemma UnselectedConverges(c: Component, p: Panel, q: Panel)
    requires Exec([CheckDisabled(c), Stop(c)], p) == Some(q)
    ensures c !in p.enabled && q == p.(active := p.active - {c})
  {
    assert Apply(CheckDisabled(c), p).Some?;
    Exec2(CheckDisabled(c), Stop(c), p, p);
  }

  lemma ConvergeRuns(staged: StagedRelease, c: Component, p: Panel, q: Panel)
    requires Exec(Converge(staged)(c), p) == Some(q)
    ensures q == p.(enabled := q.enabled, active := q.active, started := q.started) && (Launched(p) ==> Launched(q))
    ensures c in staged.selected ==> q.enabled == p.enabled + {c} && q.active == p.active + {c}
    ensures c !in staged.selected ==> c !in p.enabled && q.enabled == p.enabled && q.active == p.active - {c}
  {
    hide Exec, LaunchOf, Launched, Started;
    if c in staged.selected {
      SelectedConverges(c, p, q);
      var r := p.(enabled := p.enabled + {c});
      if Launched(p) { FewerLaunched(p, r); }
      StartLaunches(r, c);
    } else {
      UnselectedConverges(c, p, q);
      if Launched(p) { FewerLaunched(p, q); }
    }
  }

  lemma {:induction false} ConvergesRun(staged: StagedRelease, services: seq<Component>, p: Panel, q: Panel)
    requires Exec(Each(Converge(staged), services), p) == Some(q)
    ensures q == p.(enabled := q.enabled, active := q.active, started := q.started) && (Launched(p) ==> Launched(q))
    ensures forall c :: c in services ==>
              (c in q.enabled <==> c in staged.selected) && (c in q.active <==> c in staged.selected)
    ensures forall c :: c !in services ==> (c in q.enabled <==> c in p.enabled) && (c in q.active <==> c in p.active)
  {
    if services != [] {
      var r := EachSplits(Converge(staged), services, p, q);
      ConvergeRuns(staged, services[0], p, r);
      ConvergesRun(staged, services[1..], r, q);
    }
  }

  lemma ConvergeActivationRuns(staged: StagedRelease, p: Panel, q: Panel)
    requires Exec(ConvergeActivation(staged), p) == Some(q) && p.active == {}
    ensures q == p.(enabled := staged.selected, active := staged.selected, loaded := Units(p.files),
                    started := q.started)
    ensures Launched(q)
  {
    hide Exec, Each;
    var r := ConcatSplits([DaemonReload], Each(Converge(staged), Services), p, q);
    Exec1(DaemonReload, p);
    ConvergesRun(staged, Services, r, q);
    forall c: Component ensures c in Services { EveryService(c); }
  }

  /** Whatever the panel looked like, an activation that completes leaves the candidate running, started
      anew on its own files, with its ordinal published and every release as it was staged. */
  lemma ActivationRuns(staged: StagedRelease, ordinal: nat, p: Panel, q: Panel)
    requires Exec(ActivateCommands(staged, ordinal), p) == Some(q)
    ensures RunsCandidate(q, staged) && q.active == staged.selected
    ensures q.releases == p.releases && Identified(p, q, staged, ordinal)
  {
    hide Exec, PrepareActivation, QuiesceForActivation, CommitActivation, ConvergeActivation;
    var last := CommitActivation(staged, ordinal) + ConvergeActivation(staged);
    var r1 := ConcatSplits(PrepareActivation(staged), QuiesceForActivation(staged) + last, p, q);
    var r2 := ConcatSplits(QuiesceForActivation(staged), last, r1, q);
    var r3 := ConcatSplits(CommitActivation(staged, ordinal), ConvergeActivation(staged), r2, q);
    PrepareRuns(staged, p, r1);
    QuiesceActivationRuns(staged, r1, r2);
    CommitRuns(staged, ordinal, r2, r3);
    ConvergeActivationRuns(staged, r3, q);
  }

  // ----- when it completes -----

  /** The promoted release is there, with every owned file. */
  predicate Complete(p: Panel, staged: StagedRelease) {
    staged.Dir() in p.releases && forall path :: path in OwnedFiles ==> path in p.releases[staged.Dir()].files
  }

  lemma {:induction false} CopiesSucceed(staged: StagedRelease, paths: seq<Owned>, p: Panel)
    requires Complete(p, staged)
    ensures Exec(Each(Copy(staged), paths), p).Some?
  {
    if paths != [] {
      EveryOwned(paths[0]);
      var copy := CopyTemp(ActivationTemp(staged, paths[0]), staged.Dir());
      Exec1(copy, p);
      CopiesSucceed(staged, paths[1..], Apply(copy, p).value);
      ExecConcat([copy], Each(Copy(staged), paths[1..]), p);
    }
  }

  lemma {:induction false} ChmodsSucceed(staged: StagedRelease, paths: seq<Owned>, p: Panel)
    requires forall path :: path in paths ==> ActivationTemp(staged, path) in p.temps
    ensures Exec(Each(Chmod(staged), paths), p).Some?
  {
    if paths != [] {
      var chmod := ChmodTemp(ActivationTemp(staged, paths[0]), CandidateMode(paths[0]));
      Exec1(chmod, p);
      ChmodsSucceed(staged, paths[1..], Apply(chmod, p).value);
      ExecConcat([chmod], Each(Chmod(staged), paths[1..]), p);
    }
  }

  lemma PrepareSucceeds(staged: StagedRelease, p: Panel)
    requires Complete(p, staged)
    ensures Exec(PrepareActivation(staged), p).Some?
  {
    hide Exec, Each, ActivationTemps;
    var first := [CheckRelease(staged.Dir()), RemoveTemps(ActivationTemps(staged))];
    Exec2(CheckRelease(staged.Dir()), RemoveTemps(ActivationTemps(staged)), p, p);
    var q := p.(temps := p.temps - ActivationTemps(staged));
    CopiesSucceed(staged, OwnedFiles, q);
    var r := Exec(Each(Copy(staged), OwnedFiles), q).value;
    CopiesRun(staged, OwnedFiles, q, r);
    ChmodsSucceed(staged, OwnedFiles, r);
    ExecConcat(Each(Copy(staged), OwnedFiles), Each(Chmod(staged), OwnedFiles), q);
    ExecConcat(first, Each(Copy(staged), OwnedFiles) + Each(Chmod(staged), OwnedFiles), p);
  }

  lemma {:induction false} DisablesSucceed(staged: StagedRelease, services: seq<Component>, p: Panel)
    ensures Exec(Each(DisableUnselected(staged), services), p).Some?
  {
    if services != [] {
      DisableRuns(staged, services[0], p);
      hide DisableUnselected;
      DisablesSucceed(staged, services[1..], Exec(DisableUnselected(staged)(services[0]), p).value);
      ExecConcat(DisableUnselected(staged)(services[0]), Each(DisableUnselected(staged), services[1..]), p);
    }
  }

  lemma QuiesceSucceeds(staged: StagedRelease, p: Panel)
    ensures Exec(QuiesceForActivation(staged), p).Some?
  {
    StopsAll(p);
    DisablesSucceed(staged, Services, p.(active := {}));
    ExecConcat(Each(StopEach(), Services), Each(DisableUnselected(staged), Services), p);
  }

  lemma SelectSucceeds(staged: StagedRelease, path: Owned, p: Panel)
    requires Installs(staged, path) ==> ActivationTemp(staged, path) in p.temps
    ensures Exec(Select(staged)(path), p) == Some(Selected(p, staged, path))
  {
    var temp := ActivationTemp(staged, path);
    if Installs(staged, path) { Exec1(MoveTemp(temp), p); } else { Exec1(RemoveTempAndFile(temp), p); }
  }

  lemma {:induction false} SelectsSucceed(staged: StagedRelease, paths: seq<Owned>, p: Panel)
    requires Distinct(paths) && forall path :: path in paths ==> ActivationTemp(staged, path) in p.temps
    ensures Exec(Each(Select(staged), paths), p).Some?
  {
    if paths != [] {
      SelectSucceeds(staged, paths[0], p);
      hide Select, Installs;
      var q := Selected(p, staged, paths[0]);
      assert forall path :: path in paths[1..] ==> path != paths[0] && ActivationTemp(staged, path) in q.temps;
      SelectsSucceed(staged, paths[1..], q);
      ExecConcat(Select(staged)(paths[0]), Each(Select(staged), paths[1..]), p);
    }
  }

  lemma {:induction false} IdentifiesSucceed(staged: StagedRelease, ordinal: nat, services: seq<Component>, p: Panel)
    ensures Exec(Each(Identify(staged, ordinal), services), p).Some?
  {
    if services != [] {
      var name := Identify(staged, ordinal)(services[0]);
      if services[0] in staged.selected { Exec1(WriteIdentity(services[0], ordinal), p); }
      IdentifiesSucceed(staged, ordinal, services[1..], Exec(name, p).value);
      ExecConcat(name, Each(Identify(staged, ordinal), services[1..]), p);
    }
  }

  lemma CommitSucceeds(staged: StagedRelease, ordinal: nat, p: Panel)
    requires Ready(p, staged)
    ensures Exec(CommitActivation(staged, ordinal), p).Some?
  {
    hide Exec, Each, SwitchLink;
    var links := SwitchLink(staged, Activation, staged.Dir());
    var names := Each(Identify(staged, ordinal), Services);
    SelectsSucceed(staged, OwnedFiles, p);
    var q := Exec(Each(Select(staged), OwnedFiles), p).value;
    SwitchLinkRuns(q, staged, Activation, staged.Dir());
    IdentifiesSucceed(staged, ordinal, Services, Exec(links, q).value);
    ExecConcat(links, names, q);
    ExecConcat(Each(Select(staged), OwnedFiles), links + names, p);
  }

  /** What starting and enabling need of the selected services. */
  ghost predicate Startable(p: Panel, staged: StagedRelease) {
    p.enabled <= staged.selected && forall c :: c in staged.selected ==> Unit(c) in p.files && c in p.loaded
  }

  lemma ConvergeSucceeds(staged: StagedRelease, c: Component, p: Panel)
    requires Startable(p, staged)
    ensures Exec(Converge(staged)(c), p).Some? && Startable(Exec(Converge(staged)(c), p).value, staged)
  {
    if c in staged.selected {
      var r := p.(enabled := p.enabled + {c});
      StartLaunches(r, c);
      Exec3(Enable(c), Start(c), CheckConverged(c), p, r, Started(r, c));
    } else {
      Exec2(CheckDisabled(c), Stop(c), p, p);
    }
  }

  lemma {:induction false} ConvergesSucceed(staged: StagedRelease, services: seq<Component>, p: Panel)
    requires Startable(p, staged)
    ensures Exec(Each(Converge(staged), services), p).Some?
  {
    if services != [] {
      ConvergeSucceeds(staged, services[0], p);
      hide Converge, Startable;
      ConvergesSucceed(staged, services[1..], Exec(Converge(staged)(services[0]), p).value);
      ExecConcat(Converge(staged)(services[0]), Each(Converge(staged), services[1..]), p);
    }
  }

  lemma ConvergeActivationSucceeds(staged: StagedRelease, p: Panel)
    requires Linked(p, staged) && p.enabled <= staged.selected
    ensures Exec(ConvergeActivation(staged), p).Some?
  {
    hide Exec, Each;
    var q := p.(loaded := Units(p.files));
    assert forall c :: c in staged.selected ==> Installs(staged, Unit(c));
    Exec1(DaemonReload, p);
    ConvergesSucceed(staged, Services, q);
    ExecConcat([DaemonReload], Each(Converge(staged), Services), p);
  }

  lemma NeedsCompleteRelease(staged: StagedRelease, ordinal: nat, p: Panel)
    requires Exec(ActivateCommands(staged, ordinal), p).Some?
    ensures Complete(p, staged)
  {
    assert ActivateCommands(staged, ordinal)[0] == CheckRelease(staged.Dir());
    hide ActivateCommands;
  }

  /** An activation completes from any panel whatever, provided its release is complete. */
  lemma ActivationCompletes(staged: StagedRelease, ordinal: nat, p: Panel)
    ensures Exec(ActivateCommands(staged, ordinal), p).Some? <==> Complete(p, staged)
  {
    if Exec(ActivateCommands(staged, ordinal), p).Some? { NeedsCompleteRelease(staged, ordinal, p); }
    if Complete(p, staged) { CompleteActivates(staged, ordinal, p); }
  }

  lemma CompleteActivates(staged: StagedRelease, ordinal: nat, p: Panel)
    requires Complete(p, staged)
    ensures Exec(ActivateCommands(staged, ordinal), p).Some?
  {
    hide Exec, Complete, Ready, Linked, PrepareActivation, QuiesceForActivation, CommitActivation, ConvergeActivation;
    var last := CommitActivation(staged, ordinal) + ConvergeActivation(staged);
    PrepareSucceeds(staged, p);
    var r1 := Exec(PrepareActivation(staged), p).value;
    PrepareRuns(staged, p, r1);
    QuiesceSucceeds(staged, r1);
    var r2 := Exec(QuiesceForActivation(staged), r1).value;
    QuiesceActivationRuns(staged, r1, r2);
    ReadyStays(r1, r2, staged);
    CommitSucceeds(staged, ordinal, r2);
    var r3 := Exec(CommitActivation(staged, ordinal), r2).value;
    CommitRuns(staged, ordinal, r2, r3);
    ConvergeActivationSucceeds(staged, r3);
    ExecConcat(CommitActivation(staged, ordinal), ConvergeActivation(staged), r2);
    ExecConcat(QuiesceForActivation(staged), last, r1);
    ExecConcat(PrepareActivation(staged), QuiesceForActivation(staged) + last, p);
  }

  lemma ReadyStays(p: Panel, q: Panel, staged: StagedRelease)
    requires Ready(p, staged) && q == p.(enabled := q.enabled, active := q.active)
    ensures Ready(q, staged)
  {
  }
}
