/**
 * The command gate read by what it does: for each thing that decides whether a command runs, exactly which
 * event changes it, and when.
 */
module GateBehaviour {
  import opened Common
  import opened CommandFence

  predicate Is(s: State, t: nat, kind: Kind) { t in s.tasks && s.tasks[t].kind == kind }

  predicate Newest(s: State, t: nat) { t in s.tasks && s.tasks[t].fence == s.generation }

  predicate Starting(s: State, t: nat) { t in s.tasks && s.tasks[t].stage == Rebuilding(true) }

  predicate Raising(s: State, t: nat) { t in s.tasks && s.tasks[t].stage == Stopping(true) }

  /** There is something to publish for. */
  predicate HasWork(s: State) { s.started && s.owner }

  /** The task is done with the lock, or gives up waiting for it. */
  predicate Leaves(s: State, e: Event) {
    match e
    case GivesUp(_) => true
    case Stopped(_, _) => true
    case RebuildEnds(t, outcome) => outcome != Failed || !Starting(s, t)
    case Reconfigured(_, ok) => !ok || !HasWork(s)
    case SceneStarted(_, ok) => ok && !HasWork(s)
    case Enters(t, _) => Is(s, t, Debounce) && !HasWork(s)
    case _ => false
  }

  /** The task of the event leaves with an error. */
  predicate Raises(s: State, e: Event) {
    match e
    case GivesUp(_) => true
    case Stopped(t, ok) => !ok || Raising(s, t)
    case RebuildEnds(_, outcome) => outcome == Failed
    case Reconfigured(_, ok) => !ok
    case _ => false
  }

  /** The plane stops: asked to, with no enabled entry left, or because it could not start. */
  predicate Stops(s: State, e: Event) {
    match e
    case Enters(t, owner) => Is(s, t, Stop) || (!Is(s, t, Debounce) && !owner)
    case Subscribed(_, ok) => !ok
    case SceneStarted(_, ok) => !ok
    case RebuildEnds(t, outcome) => outcome == Failed && Starting(s, t)
    case _ => false
  }

  predicate StartsRebuild(s: State, e: Event) {
    match e
    case Enters(t, _) => Is(s, t, Debounce) && HasWork(s)
    case Reconfigured(_, ok) => ok && HasWork(s)
    case SceneStarted(_, ok) => ok && HasWork(s)
    case _ => false
  }

  predicate DrawsFence(e: Event) { e.Begins? && (e.kind == Detach || e.kind == Stop) }

  /** The newest detach or stop comes to its end; a detach only when all went well. */
  predicate LiftsFence(s: State, e: Event) {
    Leaves(s, e) && TaskOf(e).Some?
    && var t := TaskOf(e).value;
       Newest(s, t) && (Is(s, t, Stop) || (Is(s, t, Detach) && !Raises(s, e)))
  }

  predicate Commits(e: Event) { e.RebuildEnds? && e.outcome == NewManifest }

  /** An attach, a settings reload or a start that leaves decides anew whether commands are taken, and so does a
      rebuild as it ends. */
  predicate Reconsiders(s: State, e: Event) {
    || e.RebuildEnds?
    || (Leaves(s, e) && TaskOf(e).Some?
        && var t := TaskOf(e).value; Is(s, t, Attach) || Is(s, t, Reload) || Is(s, t, CommandFence.Start))
  }

  predicate AcceptAfter(s: State, e: Event) {
    var committed := s.committed || Commits(e);
    if e.Begins? || Stops(s, e) || StartsRebuild(s, e) then false
    else if LiftsFence(s, e) && Is(s, TaskOf(e).value, Detach) then s.started && committed
    else if Reconsiders(s, e) then
      s.started && committed && !s.hard
      && !(Raises(s, e) && TaskOf(e).Some? && Is(s, TaskOf(e).value, CommandFence.Start))
    else s.accept && !(e.Enters? && !Is(s, e.task, Debounce) && !s.started)
  }

  predicate RebuildingAfter(s: State, e: Event) {
    if e.Begins? then e.kind != Detach && (e.kind != Stop || s.rebuilding)
    else if Stops(s, e) || e.RebuildEnds? then false
    else if StartsRebuild(s, e) then true
    else s.rebuilding
         && !(Leaves(s, e) && (Reconsiders(s, e) || e.SceneStarted? || e.Enters? || (e.Reconfigured? && e.ok)
                               || (Is(s, TaskOf(e).value, Detach) && Newest(s, TaskOf(e).value))))
  }

  /** What a command must find when its turn comes: the gate open, no fence now or when it was received, and the
      same generation as then. */
  predicate MayRun(s: State, c: nat) {
    c in s.commands && s.started && s.accept && !s.hard
    && !s.commands[c].hardAtReceipt && s.commands[c].generation == s.generation
  }

  function CommandsAfter(s: State, e: Event): map<nat, Command> {
    match e
    case Received(c) =>
      if s.hard || s.accept || s.rebuilding then s.commands[c := Command(s.generation, s.hard)] else s.commands
    case Validated(c) => s.commands - {c}
    case _ => s.commands
  }

  /** Where the task of an event stands after it, if it goes on. */
  function StageAfter(s: State, e: Event): Option<Stage> {
    if StartsRebuild(s, e) then Some(Rebuilding(e.SceneStarted?))
    else if Stops(s, e) then Some(Stopping(!e.Enters?))
    else
      match e
      case Enters(_, _) => Some(if s.started then Reconfiguring else Subscribing)
      case Subscribed(_, _) => Some(StartingScene)
      case _ => None
  }

  function TasksAfter(s: State, e: Event): map<nat, Task> {
    if e.Begins? then s.tasks[e.task := Task(e.kind, Queued, s.generation + (if DrawsFence(e) then 1 else 0))]
    else if TaskOf(e).None? || TaskOf(e).value !in s.tasks then s.tasks
    else if Leaves(s, e) then s.tasks - {TaskOf(e).value}
    else if StageAfter(s, e).None? then s.tasks
    else s.tasks[TaskOf(e).value := s.tasks[TaskOf(e).value].(stage := StageAfter(s, e).value)]
  }

  /** The lock is taken by the task that enters and given back by the one that leaves. */
  function HolderAfter(s: State, e: Event): Option<nat> {
    if e.Enters? then if Leaves(s, e) then None else Some(e.task)
    else if Leaves(s, e) && s.holder == TaskOf(e) then None
    else s.holder
  }

  /** Everything an event does to the gate. */
  ghost predicate Moves(s: State, e: Event, t: State) {
    && t.accept == AcceptAfter(s, e)
    && t.hard == (DrawsFence(e) || (s.hard && !LiftsFence(s, e)))
    && t.generation == s.generation + (if DrawsFence(e) then 1 else 0)
    && t.started == ((s.started && !Stops(s, e)) || (e.Subscribed? && e.ok))
    && t.committed == (s.committed || Commits(e))
    && t.rebuilding == RebuildingAfter(s, e)
    && t.owner == (if e.Enters? && !Is(s, e.task, Stop) && !Is(s, e.task, Debounce) then e.owner else s.owner)
    && t.tasks == TasksAfter(s, e)
    && t.holder == HolderAfter(s, e)
    && t.commands == CommandsAfter(s, e)
    && t.executed == s.executed + (if e.Validated? && MayRun(s, e.command) then [e.command] else [])
  }

  // ----- one event at a time -----

  predicate Opens(s: State, t: nat) { Is(s, t, Attach) || Is(s, t, Reload) || Is(s, t, CommandFence.Start) }

  /** What leaving does, field by field. */
  lemma LeaveIs(s: State, t: nat, ok: bool)
    requires t in s.tasks
    ensures var v := Leave(s, t, ok);
            v == s.(tasks := s.tasks - {t}, holder := if s.holder == Some(t) then None else s.holder,
                    hard := s.hard && !(Newest(s, t) && (Is(s, t, Stop) || (Is(s, t, Detach) && ok))),
                    rebuilding := s.rebuilding && !Opens(s, t) && !(Is(s, t, Detach) && Newest(s, t)),
                    accept := if Opens(s, t)
                              then s.started && s.committed && !s.hard && (ok || !Is(s, t, CommandFence.Start))
                              else if Is(s, t, Detach) && Newest(s, t) && ok then s.started && s.committed
                              else s.accept)
  {
  }

  lemma RebuildIs(s: State, t: nat, starting: bool)
    requires t in s.tasks
    ensures var v := BeginRebuild(s, t, starting);
            v == if HasWork(s)
                 then s.(accept := false, rebuilding := true,
                         tasks := s.tasks[t := s.tasks[t].(stage := Rebuilding(starting))])
                 else Leave(s.(rebuilding := false), t, true)
  {
    hide Leave;
  }

  lemma BeginMoves(s: State, t: nat, kind: Kind)
    requires Enabled(s, Begins(t, kind))
    ensures Moves(s, Begins(t, kind), Next(s, Begins(t, kind)))
  {
  }

  lemma RefreshMoves(s: State, t: nat, owner: bool)
    requires Enabled(s, Enters(t, owner)) && s.tasks[t].kind == Debounce
    ensures Moves(s, Enters(t, owner), Next(s, Enters(t, owner)))
  {
    hide Leave, BeginRebuild, StopNow;
    var held := s.(holder := Some(t));
    RebuildIs(held, t, false);
    LeaveIs(held.(rebuilding := false), t, true);
  }

  lemma StopMoves(s: State, t: nat, owner: bool)
    requires Enabled(s, Enters(t, owner)) && s.tasks[t].kind != Debounce && (s.tasks[t].kind == Stop || !owner)
    ensures Moves(s, Enters(t, owner), Next(s, Enters(t, owner)))
  {
    hide Leave, BeginRebuild, Newest, MayRun;
  }

  lemma ElectMoves(s: State, t: nat, owner: bool)
    requires Enabled(s, Enters(t, owner)) && s.tasks[t].kind != Debounce && s.tasks[t].kind != Stop && owner
    ensures Moves(s, Enters(t, owner), Next(s, Enters(t, owner)))
  {
    hide Leave, BeginRebuild, StopNow, Newest, MayRun;
  }

  lemma GiveUpMoves(s: State, t: nat)
    requires Enabled(s, GivesUp(t))
    ensures Moves(s, GivesUp(t), Next(s, GivesUp(t)))
  {
    hide Leave;
    LeaveIs(s, t, false);
  }

  lemma SubscribedMoves(s: State, t: nat, ok: bool)
    requires Enabled(s, Subscribed(t, ok))
    ensures Moves(s, Subscribed(t, ok), Next(s, Subscribed(t, ok)))
  {
  }

  lemma SceneMoves(s: State, t: nat, ok: bool)
    requires Enabled(s, SceneStarted(t, ok))
    ensures Moves(s, SceneStarted(t, ok), Next(s, SceneStarted(t, ok)))
  {
    hide Leave, BeginRebuild;
    RebuildIs(s, t, true);
    LeaveIs(s.(rebuilding := false), t, true);
  }

  lemma ReconfiguredMoves(s: State, t: nat, ok: bool)
    requires Enabled(s, Reconfigured(t, ok))
    ensures Moves(s, Reconfigured(t, ok), Next(s, Reconfigured(t, ok)))
  {
    hide Leave, BeginRebuild;
    RebuildIs(s, t, false);
    LeaveIs(s.(rebuilding := false), t, true);
    LeaveIs(s, t, false);
  }

  lemma FailedStartMoves(s: State, t: nat)
    requires Enabled(s, RebuildEnds(t, Failed)) && s.tasks[t].stage.starting
    ensures Moves(s, RebuildEnds(t, Failed), Next(s, RebuildEnds(t, Failed)))
  {
    hide Leave, BeginRebuild, Newest, MayRun;
  }

  lemma RebuiltMoves(s: State, t: nat, outcome: Outcome)
    requires Enabled(s, RebuildEnds(t, outcome)) && (outcome != Failed || !s.tasks[t].stage.starting)
    ensures Moves(s, RebuildEnds(t, outcome), Next(s, RebuildEnds(t, outcome)))
  {
    hide Leave, BeginRebuild, StopNow, MayRun;
    var committed := s.(committed := s.committed || outcome == NewManifest);
    var reopened := committed.(accept := s.started && committed.committed && !s.hard, rebuilding := false);
    LeaveIs(reopened, t, outcome != Failed);
  }

  lemma StoppedMoves(s: State, t: nat, ok: bool)
    requires Enabled(s, Stopped(t, ok))
    ensures Moves(s, Stopped(t, ok), Next(s, Stopped(t, ok)))
  {
    hide Leave;
    LeaveIs(s, t, ok && !Raising(s, t));
  }

  lemma CommandMoves(s: State, e: Event)
    requires Enabled(s, e) && (e.Received? || e.Validated?)
    ensures Moves(s, e, Next(s, e))
  {
  }

  /** Every event does exactly this. */
  lemma EveryMove(s: State, e: Event)
    requires Enabled(s, e)
    ensures Moves(s, e, Next(s, e))
  {
    hide Moves, Next;
    match e
    case Begins(t, kind) => BeginMoves(s, t, kind);
    case Enters(t, owner) =>
      if s.tasks[t].kind == Debounce { RefreshMoves(s, t, owner); }
      else if s.tasks[t].kind == Stop || !owner { StopMoves(s, t, owner); }
      else { ElectMoves(s, t, owner); }
    case GivesUp(t) => GiveUpMoves(s, t);
    case Subscribed(t, ok) => SubscribedMoves(s, t, ok);
    case SceneStarted(t, ok) => SceneMoves(s, t, ok);
    case Reconfigured(t, ok) => ReconfiguredMoves(s, t, ok);
    case RebuildEnds(t, outcome) =>
      if outcome == Failed && s.tasks[t].stage.starting { FailedStartMoves(s, t); }
      else { RebuiltMoves(s, t, outcome); }
    case Stopped(t, ok) => StoppedMoves(s, t, ok);
    case _ => CommandMoves(s, e);
  }

  // ----- undisturbed runs -----

  /** No lifecycle task is under way. */
  predicate Quiet(s: State) { s.tasks == map[] && s.holder == None && !s.hard }

  /** Where a list of events leads, if each can happen in turn. */
  function Play(s: State, events: seq<Event>): Option<State>
    decreases |events|
  {
    if events == [] then Some(s)
    else if Enabled(s, events[0]) then Play(Next(s, events[0]), events[1..])
    else None
  }

  lemma {:induction false} PlayConcat(s: State, a: seq<Event>, b: seq<Event>)
    ensures Play(s, a + b) == match Play(s, a) case None => None case Some(t) => Play(t, b)
    decreases |a|
  {
    if a == [] {
      assert a + b == b;
    } else {
      assert (a + b)[1..] == a[1..] + b;
      if Enabled(s, a[0]) { PlayConcat(Next(s, a[0]), a[1..], b); }
    }
  }

  lemma PlayTwo(s: State, e: Event, f: Event)
    requires Enabled(s, e) && Enabled(Next(s, e), f)
    ensures Play(s, [e, f]) == Some(Next(Next(s, e), f))
  {
    hide Next, Enabled;
    assert [e, f][1..] == [f] && [f][1..] == [];
    assert Play(Next(s, e), [f]) == Some(Next(Next(s, e), f));
  }

  /** With the gate open a command that is received then runs. */
  lemma CommandRuns(s: State, c: nat)
    requires s.accept && s.started && !s.hard && s.holder == None && c !in s.commands && c !in s.executed
    ensures Play(s, [Received(c), Validated(c)]) == Some(s.(executed := s.executed + [c]))
  {
    PlayTwo(s, Received(c), Validated(c));
    assert s.commands[c := Command(s.generation, false)] - {c} == s.commands;
  }

  lemma AttachSubscribes(s: State, t: nat)
    requires Quiet(s) && !s.started
    ensures Play(s, [Begins(t, Attach), Enters(t, true)])
         == Some(s.(owner := true, accept := false, rebuilding := true, holder := Some(t),
                    tasks := map[t := Task(Attach, Subscribing, s.generation)]))
  {
    PlayTwo(s, Begins(t, Attach), Enters(t, true));
    var task := Task(Attach, Queued, s.generation);
    assert Next(s, Begins(t, Attach)).tasks == map[t := task];
    assert map[t := task][t := task.(stage := Subscribing)] == map[t := task.(stage := Subscribing)];
  }

  lemma StartPublishes(s: State, t: nat, fence: nat)
    requires s.tasks == map[t := Task(Attach, Subscribing, fence)] && s.owner
    ensures Play(s, [Subscribed(t, true), SceneStarted(t, true)])
         == Some(s.(started := true, accept := false, rebuilding := true,
                    tasks := map[t := Task(Attach, Rebuilding(true), fence)]))
  {
    var task := Task(Attach, Subscribing, fence);
    assert s.tasks[t := task.(stage := StartingScene)][t := task.(stage := Rebuilding(true))]
        == map[t := task.(stage := Rebuilding(true))];
    PlayTwo(s, Subscribed(t, true), SceneStarted(t, true));
  }

  lemma RebuildOpens(s: State, t: nat, task: Task, outcome: Outcome)
    requires s.tasks == map[t := task] && s.started && task.stage.Rebuilding? && s.holder == Some(t)
    requires outcome == NewManifest || (outcome == Same && s.committed)
    requires if task.kind == Detach then task.fence == s.generation else task.kind == Attach && !s.hard
    ensures Play(s, [RebuildEnds(t, outcome)])
         == Some(s.(accept := true, committed := true, hard := false, rebuilding := false, holder := None,
                    tasks := map[]))
  {
    assert s.tasks - {t} == map[];
    var events := [RebuildEnds(t, outcome)];
    assert events[1..] == [];
  }

  /** Attaching the first enabled entry opens the gate, and a command received after that runs. */
  lemma AttachOpens(s: State, t: nat, c: nat)
    requires Quiet(s) && !s.started && c !in s.commands && c !in s.executed
    ensures var end := Play(s, [Begins(t, Attach), Enters(t, true)]
                               + ([Subscribed(t, true), SceneStarted(t, true)]
                                  + ([RebuildEnds(t, NewManifest)] + [Received(c), Validated(c)])));
            end.Some? && Quiet(end.value) && end.value.accept && end.value.started && end.value.committed
            && end.value.executed == s.executed + [c]
  {
    hide Play, Next, Enabled;
    var run, ask := [RebuildEnds(t, NewManifest)], [Received(c), Validated(c)];
    AttachSubscribes(s, t);
    PlayConcat(s, [Begins(t, Attach), Enters(t, true)], [Subscribed(t, true), SceneStarted(t, true)] + (run + ask));
    var s2 := Play(s, [Begins(t, Attach), Enters(t, true)]).value;
    StartPublishes(s2, t, s.generation);
    PlayConcat(s2, [Subscribed(t, true), SceneStarted(t, true)], run + ask);
    var s4 := Play(s2, [Subscribed(t, true), SceneStarted(t, true)]).value;
    RebuildOpens(s4, t, Task(Attach, Rebuilding(true), s.generation), NewManifest);
    PlayConcat(s4, run, ask);
    CommandRuns(Play(s4, run).value, c);
  }

  lemma DetachFences(s: State, t: nat, c: nat)
    requires Quiet(s) && c !in s.commands && c !in s.executed
    ensures Play(s, [Begins(t, Detach), Received(c)])
         == Some(s.(accept := false, rebuilding := false, hard := true, generation := s.generation + 1,
                    tasks := map[t := Task(Detach, Queued, s.generation + 1)],
                    commands := s.commands[c := Command(s.generation + 1, true)]))
  {
    hide Leave, StopNow, BeginRebuild, EndRebuild, Enter, Validate;
    var task := Task(Detach, Queued, s.generation + 1);
    assert s.tasks[t := task] == map[t := task];
    PlayTwo(s, Begins(t, Detach), Received(c));
  }

  lemma DetachReconfigures(s: State, t: nat)
    requires s.tasks == map[t := Task(Detach, Queued, s.generation)] && s.started && s.holder == None
    ensures Play(s, [Enters(t, true), Reconfigured(t, true)])
         == Some(s.(owner := true, accept := false, rebuilding := true, holder := Some(t),
                    tasks := map[t := Task(Detach, Rebuilding(false), s.generation)]))
  {
    var task := Task(Detach, Queued, s.generation);
    assert s.tasks[t := task.(stage := Reconfiguring)][t := task.(stage := Rebuilding(false))]
        == map[t := task.(stage := Rebuilding(false))];
    PlayTwo(s, Enters(t, true), Reconfigured(t, true));
  }

  /** Detaching one of several entries closes the gate while it lasts and opens it again: a command received in
      between never runs, one received afterwards does. */
  lemma DetachReopens(s: State, t: nat, c: nat, d: nat)
    requires Quiet(s) && s.started && s.committed && c != d
    requires c !in s.commands && c !in s.executed && d !in s.commands && d !in s.executed
    ensures var end := Play(s, [Begins(t, Detach), Received(c)]
                               + ([Enters(t, true), Reconfigured(t, true)]
                                  + ([RebuildEnds(t, Same)] + ([Validated(c)] + [Received(d), Validated(d)]))));
            end.Some? && Quiet(end.value) && end.value.accept && end.value.executed == s.executed + [d]
  {
    hide Play, Next, Enabled;
    var run, drop, ask := [RebuildEnds(t, Same)], [Validated(c)], [Received(d), Validated(d)];
    DetachFences(s, t, c);
    PlayConcat(s, [Begins(t, Detach), Received(c)], [Enters(t, true), Reconfigured(t, true)] + (run + (drop + ask)));
    var s2 := Play(s, [Begins(t, Detach), Received(c)]).value;
    DetachReconfigures(s2, t);
    PlayConcat(s2, [Enters(t, true), Reconfigured(t, true)], run + (drop + ask));
    var s4 := Play(s2, [Enters(t, true), Reconfigured(t, true)]).value;
    RebuildOpens(s4, t, Task(Detach, Rebuilding(false), s2.generation), Same);
    PlayConcat(s4, run, drop + ask);
    var s5 := Play(s4, run).value;
    FencedDropped(s5, c);
    PlayConcat(s5, drop, ask);
    CommandRuns(Play(s5, drop).value, d);
  }

  lemma FencedDropped(s: State, c: nat)
    requires c in s.commands && s.commands[c].hardAtReceipt && s.holder == None
    ensures Play(s, [Validated(c)]) == Some(s.(commands := s.commands - {c}))
  {
    var events := [Validated(c)];
    assert events[1..] == [];
  }
}
