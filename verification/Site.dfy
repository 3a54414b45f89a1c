/**
 * The durable world under the provisioner's hands. Each attempt at a store write or a shell step may
 * succeed, fail with or without having taken effect, or be the last thing that happens before a
 * crash; a calm site never disturbs anything. The history keeps every world there has been, so that
 * every point of it is a possible crash state.
 */
module DurableSite {
  import opened Common
  import opened PanelState
  import opened Rollback
  import opened Records
  import opened Protocol
  import opened Safety

  /** How one effect, or a whole operation, ended. */
  datatype Signal = Done | Failed | Crashed

  class Site {
    var w: World
    ghost var history: seq<World>
    const calm: bool

    constructor (w0: World, calm: bool)
      requires Inv(w0)
      ensures Valid() && w == w0 && history == [w0] && this.calm == calm
    {
      w := w0;
      history := [w0];
      this.calm := calm;
    }

    /** The history is a run of the protocol from a sound world to the present one. */
    ghost predicate Valid()
      reads this
    {
      Run(history) && Inv(history[0]) && history[|history| - 1] == w && Inv(w)
    }

    /** Carry one step out. When it is a step of the protocol, the history stays a run of it. */
    method Perform(step: Step)
      requires Defined(w, step)
      modifies this
      ensures w == Do(old(w), step) && history == old(history) + [w]
      ensures old(Valid()) && Enabled(old(w), step) ==> Valid()
    {
      hide Inv, Enabled, Do;
      if Valid() && Enabled(w, step) {
        StepKeepsInv(w, step);
        assert Next(w, Do(w, step));
      }
      w := Do(w, step);
      history := history + [w];
    }

    /** An effect that may go wrong: then it may or may not have happened. */
    method Attempt(step: Step) returns (signal: Signal)
      requires Defined(w, step)
      modifies this
      ensures old(history) <= history
      ensures old(Valid()) && Enabled(old(w), step) ==> Valid()
      ensures w == old(w) || w == Do(old(w), step)
      ensures signal.Done? ==> w == Do(old(w), step)
      ensures calm ==> signal.Done?
    {
      hide Inv, Enabled, Do;
      signal := Trouble();
      if signal.Done? {
        Perform(step);
      } else if * {
        Perform(step);
      }
    }

    /** Whether a read, a connection or an answer from outside goes through. */
    method Trouble() returns (signal: Signal)
      ensures calm ==> signal.Done?
    {
      signal := Done;
      if !calm {
        if * { signal := Failed; } else if * { signal := Crashed; }
      }
    }

    /** Wait for a deployment's health; the observer confirms it or gives up. */
    method AwaitHealth(deployment: Uuid) returns (signal: Signal)
      requires Valid()
      modifies this
      ensures Valid() && old(history) <= history
      ensures w == old(w) || w == Do(old(w), Observe(deployment))
      ensures signal.Done? ==> w == Do(old(w), Observe(deployment))
      ensures calm ==> signal.Done?
    {
      hide Inv;
      signal := Attempt(Observe(deployment));
    }

    /** Only this panel differs. */
    twostate predicate OnlyPanel(panel: Fingerprint)
      reads this
    {
      panel in old(w).panels && panel in w.panels
      && w == old(w).(panels := old(w).panels[panel := w.panels[panel]])
    }

    method RunShell(panel: Fingerprint, cmd: Cmd)
      requires Valid() && Enabled(w, Shell(panel, cmd))
      modifies this
      ensures Valid() && old(history) <= history
      ensures OnlyPanel(panel) && Apply(cmd, old(w).panels[panel]) == Some(w.panels[panel])
      ensures history == old(history) + [w]
    {
      hide Inv, Permitted, Apply;
      Perform(Shell(panel, cmd));
    }

    /** A cut restore of the code trees may leave any trees behind. */
    method TearTrees(panel: Fingerprint, cmd: Cmd)
      requires Valid() && panel in w.panels && Permitted(w, panel, cmd)
      modifies this
      ensures Valid() && old(history) <= history
      ensures OnlyPanel(panel) && w.panels[panel] == old(w).panels[panel].(trees := w.panels[panel].trees)
    {
      hide Inv, Permitted;
      if cmd.RestoreBaseline? || cmd.WriteTrees? {
        if * {
          var wreck: Trees := *;
          Perform(Torn(panel, cmd, wreck));
        }
      }
    }

    /** One shell step: it may exit non-zero, be cut, or leave a half-restored tree. */
    method Execute(panel: Fingerprint, cmd: Cmd) returns (signal: Signal)
      requires Valid() && panel in w.panels && Permitted(w, panel, cmd) && LinksKnown(w.panels[panel], cmd)
      modifies this
      ensures Valid() && old(history) <= history
      ensures OnlyPanel(panel)
      ensures signal.Done? ==>
                Apply(cmd, old(w).panels[panel]) == Some(w.panels[panel]) && history == old(history) + [w]
      ensures calm ==> (signal.Done? <==> Apply(cmd, old(w).panels[panel]).Some?) && !signal.Crashed?
      ensures !cmd.Prune? ==> old(w).panels[panel].releases.Keys <= w.panels[panel].releases.Keys
    {
      hide Inv, Permitted, Apply;
      ReleasesStay(cmd, w.panels[panel]);
      signal := Trouble();
      if Apply(cmd, w.panels[panel]).None? {
        if signal.Done? { signal := Failed; }
      } else if signal.Done? {
        RunShell(panel, cmd);
      } else if * {
        RunShell(panel, cmd);
      } else {
        TearTrees(panel, cmd);
      }
    }

    /** A command list, stopping at the first step that does not succeed. */
    method ExecuteAll(panel: Fingerprint, cmds: seq<Cmd>, link: Option<Target>) returns (signal: Signal)
      requires Valid() && panel in w.panels
      requires forall cmd :: cmd in cmds ==>
                 Permitted(w, panel, cmd) && !cmd.Prune? && (cmd.MoveLinkTemp? ==> link == Some(cmd.dir))
      requires link.Some? ==>
                 link.value in w.panels[panel].releases || (cmds != [] && cmds[0] == CheckRelease(link.value))
      modifies this
      ensures Valid() && old(history) <= history
      ensures OnlyPanel(panel)
      ensures signal.Done? ==>
                Exec(cmds, old(w).panels[panel]) == Some(w.panels[panel]) && |history| == |old(history)| + |cmds|
      ensures calm ==> (signal.Done? <==> Exec(cmds, old(w).panels[panel]).Some?) && !signal.Crashed?
      ensures old(w).panels[panel].releases.Keys <= w.panels[panel].releases.Keys
    {
      hide Inv, Permitted, Apply;
      var i := 0;
      signal := Done;
      while i < |cmds|
        invariant 0 <= i <= |cmds| && signal.Done?
        invariant Valid() && old(history) <= history && OnlyPanel(panel) && |history| == |old(history)| + i
        invariant Exec(cmds, old(w).panels[panel]) == Exec(cmds[i..], w.panels[panel])
        invariant old(w).panels[panel].releases.Keys <= w.panels[panel].releases.Keys
        invariant link.Some? && i > 0 ==> link.value in w.panels[panel].releases
      {
        assert cmds[i] in cmds && cmds[i..][0] == cmds[i] && cmds[i..][1..] == cmds[i + 1..];
        PermittedOnStores(old(w), w, panel, cmds[i]);
        ghost var before := w.panels[panel];
        signal := Execute(panel, cmds[i]);
        if !signal.Done? { return; }
        CheckedRelease(cmds[i], before);
        i := i + 1;
      }
    }
  }

  lemma CheckedRelease(cmd: Cmd, p: Panel)
    ensures cmd.CheckRelease? && Apply(cmd, p).Some? ==> cmd.dir in p.releases
  {
  }

  lemma ReleasesStay(cmd: Cmd, p: Panel)
    ensures !cmd.Prune? && Apply(cmd, p).Some? ==> p.releases.Keys <= Apply(cmd, p).value.releases.Keys
  {
  }

  lemma PermittedOnStores(w: World, v: World, panel: Fingerprint, cmd: Cmd)
    requires v.active == w.active && v.retained == w.retained
    ensures Permitted(w, panel, cmd) <==> Permitted(v, panel, cmd)
  {
  }
}
