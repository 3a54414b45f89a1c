/** The control plane's lifecycle methods as they run, one per stretch between awaits. */
module ControlPlane {
  import opened Common
  import opened CommandFence

  class HaControlPlane {
    var owner: bool
    var started: bool
    var committed: bool
    var accept: bool
    var rebuilding: bool
    var hard: bool
    var generation: nat
    var tasks: map<nat, Task>
    var holder: Option<nat>
    var commands: map<nat, Command>
    ghost var executed: seq<nat>

    constructor ()
      ensures Now() == Fresh
    {
      owner, started, committed, accept, rebuilding, hard := false, false, false, false, false, false;
      generation, tasks, holder, commands, executed := 0, map[], None, map[], [];
    }

    ghost function Now(): State
      reads this
    {
      State(owner, started, committed, accept, rebuilding, hard, generation, tasks, holder, commands, executed)
    }

    /** Close the gate before queueing for the lifecycle lock; a detach or stop draws a new generation. */
    method BeginTask(t: nat, kind: Kind)
      modifies this
      ensures Now() == Begin(old(Now()), t, kind)
    {
      accept := false;
      if kind.Detach? || kind.Stop? {
        if kind.Detach? { rebuilding := false; }
        hard := true;
        generation := generation + 1;
      } else {
        rebuilding := true;
      }
      tasks := tasks[t := Task(kind, Queued, generation)];
    }

    predicate Ready()
      reads this
    {
      started && committed && !hard
    }

    /** Reopen as far as the task may; a detach or stop lifts the fence only when it is the newest. */
    method LeaveLock(t: nat, ok: bool)
      requires t in tasks
      modifies this
      ensures Now() == Leave(old(Now()), t, ok)
    {
      var task := tasks[t];
      tasks, holder := tasks - {t}, if holder == Some(t) then None else holder;
      match task.kind {
        case Attach => rebuilding, accept := false, Ready();
        case Reload => rebuilding, accept := false, Ready();
        case Start => rebuilding, accept := false, ok && Ready();
        case Detach =>
          if task.fence == generation {
            rebuilding := false;
            if ok { hard, accept := false, started && committed; }
          }
        case Stop =>
          if task.fence == generation { hard := false; }
        case Debounce =>
      }
    }

    method StopLocked(t: nat, raising: bool)
      requires t in tasks
      modifies this
      ensures Now() == StopNow(old(Now()), t, raising)
    {
      started, accept, rebuilding := false, false, false;
      tasks := tasks[t := tasks[t].(stage := Stopping(raising))];
    }

    method BeginRebuilding(t: nat, starting: bool)
      requires t in tasks
      modifies this
      ensures Now() == BeginRebuild(old(Now()), t, starting)
    {
      if !started || !owner {
        rebuilding := false;
        LeaveLock(t, true);
        return;
      }
      accept, rebuilding := false, true;
      tasks := tasks[t := tasks[t].(stage := Rebuilding(starting))];
    }

    method EnterLock(t: nat, elected: bool)
      requires t in tasks
      modifies this
      ensures Now() == Enter(old(Now()), t, elected)
    {
      hide StopNow, BeginRebuild, At, Leave;
      holder := Some(t);
      ghost var held := old(Now()).(holder := Some(t));
      assert Now() == held;
      if tasks[t].kind.Stop? {
        StopLocked(t, false);
      } else if tasks[t].kind.Debounce? {
        BeginRebuilding(t, false);
      } else {
        Elect(t, elected);
      }
    }

    /** With no enabled entry left the plane stops; otherwise it starts, or is reconfigured. */
    method Elect(t: nat, elected: bool)
      requires t in tasks
      modifies this
      ensures var s := old(Now()).(owner := elected);
              Now() == if !elected then StopNow(s, t, false)
                       else if !s.started then At(s.(accept := false), t, Subscribing)
                       else At(s, t, Reconfiguring)
    {
      owner := elected;
      if !elected {
        StopLocked(t, false);
      } else {
        if !started { accept := false; }
        tasks := tasks[t := tasks[t].(stage := if started then Reconfiguring else Subscribing)];
      }
    }

    /** The command subscription: with it the plane counts as started, without it it stops again. */
    method OnSubscribed(t: nat, ok: bool)
      requires Enabled(Now(), Subscribed(t, ok))
      modifies this
      ensures Now() == Next(old(Now()), Subscribed(t, ok))
    {
      if ok {
        started := true;
        tasks := tasks[t := tasks[t].(stage := StartingScene)];
      } else {
        StopLocked(t, true);
      }
    }

    method OnSceneStarted(t: nat, ok: bool)
      requires Enabled(Now(), SceneStarted(t, ok))
      modifies this
      ensures Now() == Next(old(Now()), SceneStarted(t, ok))
    {
      if ok { BeginRebuilding(t, true); } else { StopLocked(t, true); }
    }

    method OnReconfigured(t: nat, ok: bool)
      requires Enabled(Now(), Reconfigured(t, ok))
      modifies this
      ensures Now() == Next(old(Now()), Reconfigured(t, ok))
    {
      if ok { BeginRebuilding(t, false); } else { LeaveLock(t, false); }
    }

    /** A stop that was the reaction to a failure still reports that failure. */
    method OnStopped(t: nat, ok: bool)
      requires Enabled(Now(), Stopped(t, ok))
      modifies this
      ensures Now() == Next(old(Now()), Stopped(t, ok))
    {
      LeaveLock(t, ok && !tasks[t].stage.raising);
    }

    method EndRebuilding(t: nat, outcome: Outcome)
      requires t in tasks && tasks[t].stage.Rebuilding?
      modifies this
      ensures Now() == EndRebuild(old(Now()), t, outcome)
    {
      var starting := tasks[t].stage.starting;
      if outcome.NewManifest? { committed := true; }
      rebuilding := false;
      accept := Ready();
      if !outcome.Failed? { LeaveLock(t, true); }
      else if starting { StopLocked(t, true); }
      else { LeaveLock(t, false); }
    }

    method ReceiveCommand(c: nat)
      modifies this
      ensures Now() == Receive(old(Now()), c)
    {
      if !hard && !accept && !rebuilding { return; }
      commands := commands[c := Command(generation, hard)];
    }

    method ValidateCommand(c: nat) returns (run: bool)
      requires c in commands
      modifies this
      ensures Now() == Validate(old(Now()), c) && run == Passes(old(Now()), old(commands)[c])
    {
      var command := commands[c];
      commands := commands - {c};
      run := started && accept && !hard && !command.hardAtReceipt && command.generation == generation;
      if run { executed := executed + [c]; }
    }
  }
}
