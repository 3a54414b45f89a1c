/**
 * Who may execute commands while the control plane is attached, detached, reloaded, rebuilt or stopped.
 * Lifecycle tasks queue for one lock; every stretch between awaits is one event, in any interleaving.
 */
module CommandFence {
  import opened Common

  datatype Kind = Attach | Detach | Stop | Reload | Start | Debounce

  /** Where a lifecycle task stands: queued for the lock, or at one of the awaits inside it. */
  datatype Stage =
    | Queued | Subscribing | StartingScene | Reconfiguring
    | Rebuilding(starting: bool)
    | Stopping(raising: bool)

  /** `fence` is the generation a detach or stop drew when it began. */
  datatype Task = Task(kind: Kind, stage: Stage, fence: nat)

  /** A command remembers what it saw when it was received. */
  datatype Command = Command(generation: nat, hardAtReceipt: bool)

  datatype State = State(
    owner: bool,
    started: bool,
    committed: bool,
    accept: bool,
    rebuilding: bool,
    hard: bool,
    generation: nat,
    tasks: map<nat, Task>,
    holder: Option<nat>,
    commands: map<nat, Command>,
    executed: seq<nat>)

  const Fresh: State := State(false, false, false, false, false, false, 0, map[], None, map[], [])

  predicate Fences(kind: Kind) { kind.Detach? || kind.Stop? }

  // ----- stretches -----

  /** The first stretch of a task, before it waits for the lock. */
  function Begin(s: State, t: nat, kind: Kind): State {
    var closed := s.(accept := false);
    var flagged :=
      match kind
      case Detach => closed.(rebuilding := false, hard := true, generation := s.generation + 1)
      case Stop => closed.(hard := true, generation := s.generation + 1)
      case _ => closed.(rebuilding := true);
    flagged.(tasks := s.tasks[t := Task(kind, Queued, flagged.generation)])
  }

  predicate MayAccept(s: State) { s.started && s.committed && !s.hard }

  /** What a task does when it leaves the lock, or gives up waiting for it. */
  function Leave(s: State, t: nat, ok: bool): State
    requires t in s.tasks
  {
    var task := s.tasks[t];
    var gone := s.(tasks := s.tasks - {t}, holder := if s.holder == Some(t) then None else s.holder);
    var newest := task.fence == s.generation;
    match task.kind
    case Attach => gone.(rebuilding := false, accept := MayAccept(s))
    case Reload => gone.(rebuilding := false, accept := MayAccept(s))
    case Start => gone.(rebuilding := false, accept := ok && MayAccept(s))
    case Detach =>
      if !newest then gone
      else if ok then gone.(hard := false, rebuilding := false, accept := s.started && s.committed)
      else gone.(rebuilding := false)
    case Stop => if newest then gone.(hard := false) else gone
    case Debounce => gone
  }

  function At(s: State, t: nat, stage: Stage): State
    requires t in s.tasks
  {
    s.(tasks := s.tasks[t := s.tasks[t].(stage := stage)])
  }

  /** Stopping: nothing is started or accepted from here on. */
  function StopNow(s: State, t: nat, raising: bool): State
    requires t in s.tasks
  {
    At(s.(started := false, accept := false, rebuilding := false), t, Stopping(raising))
  }

  function BeginRebuild(s: State, t: nat, starting: bool): State
    requires t in s.tasks
  {
    if !s.started || !s.owner then Leave(s.(rebuilding := false), t, true)
    else At(s.(accept := false, rebuilding := true), t, Rebuilding(starting))
  }

  /** The task gets the lock; `owner` is whether an enabled entry is attached after its own change. */
  function Enter(s: State, t: nat, owner: bool): State
    requires t in s.tasks
  {
    var held := s.(holder := Some(t));
    match s.tasks[t].kind
    case Stop => StopNow(held, t, false)
    case Debounce => BeginRebuild(held, t, false)
    case _ =>
      var elected := held.(owner := owner);
      if !owner then StopNow(elected, t, false)
      else if !s.started then At(elected.(accept := false), t, Subscribing)
      else At(elected, t, Reconfiguring)
  }

  datatype Outcome = Same | NewManifest | Failed

  /** The rebuild's publishes are over: reopen under the new manifest, or the old one if it failed. */
  function EndRebuild(s: State, t: nat, outcome: Outcome): State
    requires t in s.tasks && s.tasks[t].stage.Rebuilding?
  {
    var committed := s.(committed := s.committed || outcome.NewManifest?);
    var reopened := committed.(accept := MayAccept(committed), rebuilding := false);
    if !outcome.Failed? then Leave(reopened, t, true)
    else if s.tasks[t].stage.starting then StopNow(reopened, t, true)
    else Leave(reopened, t, false)
  }

  datatype Event =
    | Begins(task: nat, kind: Kind)
    | Enters(task: nat, owner: bool)
    | GivesUp(task: nat)
    | Subscribed(task: nat, ok: bool)
    | SceneStarted(task: nat, ok: bool)
    | Reconfigured(task: nat, ok: bool)
    | RebuildEnds(task: nat, outcome: Outcome)
    | Stopped(task: nat, ok: bool)
    | Received(command: nat)
    | Validated(command: nat)

  predicate Enabled(s: State, e: Event) {
    match e
    case Begins(t, kind) => t !in s.tasks
    case Enters(t, owner) => t in s.tasks && s.tasks[t].stage.Queued? && s.holder.None?
    case GivesUp(t) => t in s.tasks && s.tasks[t].stage.Queued?
    case Subscribed(t, ok) => t in s.tasks && s.tasks[t].stage.Subscribing?
    case SceneStarted(t, ok) => t in s.tasks && s.tasks[t].stage.StartingScene?
    case Reconfigured(t, ok) => t in s.tasks && s.tasks[t].stage.Reconfiguring?
    case RebuildEnds(t, outcome) => t in s.tasks && s.tasks[t].stage.Rebuilding? && (outcome.Same? ==> s.committed)
    case Stopped(t, ok) => t in s.tasks && s.tasks[t].stage.Stopping?
    case Received(c) => c !in s.commands && c !in s.executed
    case Validated(c) => c in s.commands && s.holder.None?
  }

  /** A command is dropped at once only when nothing could reopen; otherwise it queues. */
  function Receive(s: State, c: nat): State {
    if !s.hard && !s.accept && !s.rebuilding then s else s.(commands := s.commands[c := Command(s.generation, s.hard)])
  }

  predicate Passes(s: State, c: Command) {
    s.started && s.accept && !s.hard && !c.hardAtReceipt && c.generation == s.generation
  }

  /** Under the locks the command is checked against the fences, and may go on to a service call. */
  function Validate(s: State, c: nat): State
    requires c in s.commands
  {
    var rest := s.(commands := s.commands - {c});
    if Passes(s, s.commands[c]) then rest.(executed := s.executed + [c]) else rest
  }

  function Next(s: State, e: Event): State
    requires Enabled(s, e)
  {
    match e
    case Begins(t, kind) => Begin(s, t, kind)
    case Enters(t, owner) => Enter(s, t, owner)
    case GivesUp(t) => Leave(s, t, false)
    case Subscribed(t, ok) => if ok then At(s.(started := true), t, StartingScene) else StopNow(s, t, true)
    case SceneStarted(t, ok) => if ok then BeginRebuild(s, t, true) else StopNow(s, t, true)
    case Reconfigured(t, ok) => if ok then BeginRebuild(s, t, false) else Leave(s, t, false)
    case RebuildEnds(t, outcome) => EndRebuild(s, t, outcome)
    case Stopped(t, ok) => Leave(s, t, ok && !s.tasks[t].stage.raising)
    case Received(c) => Receive(s, c)
    case Validated(c) => Validate(s, c)
  }

  ghost predicate Steps(s: State, t: State) { exists e: Event :: Enabled(s, e) && t == Next(s, e) }

  ghost predicate Run(states: seq<State>) {
    |states| > 0 && states[0] == Fresh && forall i :: 0 < i < |states| ==> Steps(states[i - 1], states[i])
  }

  // ----- safety -----

  predicate SameFence(a: Task, b: Task) { Fences(a.kind) && Fences(b.kind) && a.fence == b.fence }

  /** Accepting means started, with a committed manifest, under no hard fence; and while the newest
      detach or stop is under way the fence is up. */
  predicate Inv(s: State) {
    && (s.accept ==> s.started && s.committed && !s.hard)
    && (forall t :: t in s.tasks ==> s.tasks[t].fence <= s.generation)
    && (forall t :: t in s.tasks && Fences(s.tasks[t].kind) && s.tasks[t].fence == s.generation ==> s.hard)
    && (forall t, u :: t in s.tasks && u in s.tasks && SameFence(s.tasks[t], s.tasks[u]) ==> t == u)
    && (forall c :: c in s.commands ==> s.commands[c].generation <= s.generation)
  }

  lemma StopKeeps(s: State, t: nat, raising: bool)
    requires Inv(s) && t in s.tasks
    ensures Inv(StopNow(s, t, raising)) && StopNow(s, t, raising).generation == s.generation
    ensures Lifts(s, t, StopNow(s, t, raising))
  {
  }

  lemma AtKeeps(s: State, t: nat, stage: Stage)
    requires Inv(s) && t in s.tasks
    ensures Inv(At(s, t, stage)) && At(s, t, stage).generation == s.generation
  {
  }

  /** Closing, or opening where it is allowed, keeps the invariant. */
  lemma FlagsKeep(s: State, t: State)
    requires Inv(s) && (t.accept ==> MayAccept(t))
    requires t.hard == s.hard && t.generation == s.generation && t.tasks == s.tasks && t.commands == s.commands
    ensures Inv(t)
  {
  }

  /** If the fence came down, this task had put up the newest one and is now gone; commands are untouched. */
  predicate Lifts(s: State, t: nat, v: State)
    requires t in s.tasks
  {
    && (s.hard && !v.hard ==> Fences(s.tasks[t].kind) && s.tasks[t].fence == s.generation && t !in v.tasks)
    && v.commands == s.commands && v.executed == s.executed
  }

  /** Dropping a task that is not the newest fence. */
  lemma DropKeeps(s: State, t: nat, v: State)
    requires Inv(s) && t in s.tasks && v.tasks == s.tasks - {t} && v.commands == s.commands
             && v.generation == s.generation
    requires v.hard == s.hard && (v.accept ==> MayAccept(v))
    ensures Inv(v)
  {
  }

  /** Dropping the newest fence may lift it: no other task holds the same generation. */
  lemma LiftKeeps(s: State, t: nat, v: State)
    requires Inv(s) && t in s.tasks && v.tasks == s.tasks - {t} && v.commands == s.commands
             && v.generation == s.generation
    requires Fences(s.tasks[t].kind) && s.tasks[t].fence == s.generation && !v.hard && (v.accept ==> MayAccept(v))
    ensures Inv(v)
  {
    forall u | u in v.tasks && Fences(v.tasks[u].kind) ensures v.tasks[u].fence != v.generation {
      assert !SameFence(s.tasks[u], s.tasks[t]);
    }
  }

  lemma LeaveKeeps(s: State, t: nat, ok: bool)
    requires Inv(s) && t in s.tasks
    ensures Inv(Leave(s, t, ok)) && Leave(s, t, ok).generation == s.generation
    ensures Lifts(s, t, Leave(s, t, ok))
  {
    hide Inv;
    var v := Leave(s, t, ok);
    AcceptMay(s);
    if v.hard == s.hard { DropKeeps(s, t, v); } else { LiftKeeps(s, t, v); }
  }

  lemma RebuildKeeps(s: State, t: nat, starting: bool)
    requires Inv(s) && t in s.tasks
    ensures Inv(BeginRebuild(s, t, starting)) && BeginRebuild(s, t, starting).generation == s.generation
    ensures Lifts(s, t, BeginRebuild(s, t, starting))
  {
    hide Inv, Leave, MayAccept;
    FlagsKeep(s, s.(rebuilding := false)) by { AcceptMay(s); }
    LeaveKeeps(s.(rebuilding := false), t, true);
    FlagsKeep(s, s.(accept := false, rebuilding := true));
    AtKeeps(s.(accept := false, rebuilding := true), t, Rebuilding(starting));
  }

  lemma AcceptMay(s: State)
    requires Inv(s)
    ensures s.accept ==> MayAccept(s)
  {
  }

  lemma MaySame(s: State, t: State)
    requires t.started == s.started && t.committed == s.committed && t.hard == s.hard
    ensures MayAccept(t) == MayAccept(s)
  {
  }

  lemma BeginKeeps(s: State, t: nat, kind: Kind)
    requires Inv(s) && t !in s.tasks
    ensures Inv(Begin(s, t, kind)) && Begin(s, t, kind).generation == s.generation + (if Fences(kind) then 1 else 0)
  {
  }

  lemma EnterKeeps(s: State, t: nat, owner: bool)
    requires Inv(s) && t in s.tasks
    ensures Inv(Enter(s, t, owner)) && Enter(s, t, owner).generation == s.generation
    ensures Lifts(s, t, Enter(s, t, owner))
  {
    hide Inv, MayAccept, BeginRebuild, StopNow;
    AcceptMay(s);
    var held := s.(holder := Some(t));
    MaySame(s, held);
    FlagsKeep(s, held);
    StopKeeps(held, t, false);
    RebuildKeeps(held, t, false);
    var elected := held.(owner := owner);
    MaySame(s, elected);
    FlagsKeep(s, elected);
    StopKeeps(elected, t, false);
    FlagsKeep(s, elected.(accept := false));
    AtKeeps(elected.(accept := false), t, Subscribing);
    AtKeeps(elected, t, Reconfiguring);
  }

  lemma EndKeeps(s: State, t: nat, outcome: Outcome)
    requires Inv(s) && t in s.tasks && s.tasks[t].stage.Rebuilding?
    ensures Inv(EndRebuild(s, t, outcome)) && EndRebuild(s, t, outcome).generation == s.generation
    ensures Lifts(s, t, EndRebuild(s, t, outcome))
  {
    hide Inv, MayAccept, StopNow, Leave;
    var committed := s.(committed := s.committed || outcome.NewManifest?);
    var reopened := committed.(accept := MayAccept(committed), rebuilding := false);
    MaySame(committed, reopened);
    FlagsKeep(s, reopened);
    LeaveKeeps(reopened, t, true);
    LeaveKeeps(reopened, t, false);
    StopKeeps(reopened, t, true);
  }

  lemma StartedKeeps(s: State)
    requires Inv(s)
    ensures Inv(s.(started := true))
  {
  }

  lemma CommandKeeps(s: State, c: nat)
    requires Inv(s)
    ensures Inv(Receive(s, c)) && (c in s.commands ==> Inv(Validate(s, c)))
  {
  }

  lemma StepKeeps(s: State, e: Event)
    requires Inv(s) && Enabled(s, e)
    ensures Inv(Next(s, e))
    ensures Next(s, e).generation == s.generation + (if e.Begins? && Fences(e.kind) then 1 else 0)
  {
    hide Inv, Begin, Enter, Leave, StopNow, BeginRebuild, EndRebuild, Receive, Validate;
    match e
    case Begins(t, kind) => BeginKeeps(s, t, kind);
    case Enters(t, owner) => EnterKeeps(s, t, owner);
    case GivesUp(t) => LeaveKeeps(s, t, false);
    case Subscribed(t, ok) =>
      StartedKeeps(s);
      AtKeeps(s.(started := true), t, StartingScene);
      StopKeeps(s, t, true);
    case SceneStarted(t, ok) =>
      RebuildKeeps(s, t, true);
      StopKeeps(s, t, true);
    case Reconfigured(t, ok) =>
      RebuildKeeps(s, t, false);
      LeaveKeeps(s, t, false);
    case RebuildEnds(t, outcome) => EndKeeps(s, t, outcome);
    case Stopped(t, ok) => LeaveKeeps(s, t, ok && !s.tasks[t].stage.raising);
    case Received(c) => CommandKeeps(s, c); CommandGeneration(s, c);
    case Validated(c) => CommandKeeps(s, c); CommandGeneration(s, c);
  }

  lemma CommandGeneration(s: State, c: nat)
    ensures Receive(s, c).generation == s.generation && (c in s.commands ==> Validate(s, c).generation == s.generation)
  {
  }

  /** The task an event belongs to. */
  function TaskOf(e: Event): Option<nat> {
    match e
    case Begins(_, _) => None
    case Received(_) => None
    case Validated(_) => None
    case Enters(t, _) => Some(t)
    case GivesUp(t) => Some(t)
    case Subscribed(t, _) => Some(t)
    case SceneStarted(t, _) => Some(t)
    case Reconfigured(t, _) => Some(t)
    case RebuildEnds(t, _) => Some(t)
    case Stopped(t, _) => Some(t)
  }

  lemma StepLifts(s: State, e: Event)
    requires Inv(s) && Enabled(s, e)
    ensures TaskOf(e).Some? ==> TaskOf(e).value in s.tasks && Lifts(s, TaskOf(e).value, Next(s, e))
    ensures e.Begins? ==>
              (s.hard ==> Next(s, e).hard) && Next(s, e).commands == s.commands && Next(s, e).executed == s.executed
    ensures e.Received? || e.Validated? ==> Next(s, e).hard == s.hard
  {
    hide Inv, Enter, Leave, StopNow, BeginRebuild, EndRebuild, Begin, Receive, Validate;
    match e
    case Begins(t, kind) => BeginLifts(s, t, kind);
    case Received(c) => CommandLifts(s, c);
    case Validated(c) => CommandLifts(s, c);
    case Enters(t, owner) => EnterKeeps(s, t, owner);
    case GivesUp(t) => LeaveKeeps(s, t, false);
    case Subscribed(t, ok) => StopKeeps(s, t, true);
    case SceneStarted(t, ok) =>
      RebuildKeeps(s, t, true);
      StopKeeps(s, t, true);
    case Reconfigured(t, ok) =>
      RebuildKeeps(s, t, false);
      LeaveKeeps(s, t, false);
    case RebuildEnds(t, outcome) => EndKeeps(s, t, outcome);
    case Stopped(t, ok) => LeaveKeeps(s, t, ok && !s.tasks[t].stage.raising);
  }

  lemma BeginLifts(s: State, t: nat, kind: Kind)
    ensures var v := Begin(s, t, kind); (s.hard ==> v.hard) && v.commands == s.commands && v.executed == s.executed
  {
  }

  lemma CommandLifts(s: State, c: nat)
    ensures Receive(s, c).hard == s.hard && (c in s.commands ==> Validate(s, c).hard == s.hard)
  {
  }

  lemma {:induction false} RunKeeps(states: seq<State>, i: nat)
    requires Run(states) && i < |states|
    ensures Inv(states[i])
  {
    hide Inv, Enabled, Next;
    if i == 0 {
      FreshIsFine();
    } else {
      RunKeeps(states, i - 1);
      assert Steps(states[i - 1], states[i]);
      var e: Event :| Enabled(states[i - 1], e) && states[i] == Next(states[i - 1], e);
      StepKeeps(states[i - 1], e);
    }
  }

  lemma FreshIsFine()
    ensures Inv(Fresh)
  {
  }

  /** In every reachable state, accepting commands means started, committed and not fenced. */
  lemma AcceptIsSafe(states: seq<State>, i: nat)
    requires Run(states) && i < |states| && states[i].accept
    ensures states[i].started && states[i].committed && !states[i].hard
  {
    RunKeeps(states, i);
  }

  /** A fence is only ever lifted by the task that put up the newest one, as it ends. */
  lemma OnlyNewestLifts(states: seq<State>, i: nat)
    requires Run(states) && i + 1 < |states| && states[i].hard && !states[i + 1].hard
    ensures exists t :: t in states[i].tasks && Fences(states[i].tasks[t].kind)
                        && states[i].tasks[t].fence == states[i].generation && t !in states[i + 1].tasks
  {
    hide Inv, Enabled, Next;
    RunKeeps(states, i);
    assert Steps(states[i], states[i + 1]);
    var e: Event :| Enabled(states[i], e) && states[i + 1] == Next(states[i], e);
    StepLifts(states[i], e);
  }

  // ----- commands across a fence -----

  lemma {:induction false} GenerationsRise(states: seq<State>, i: nat, j: nat)
    requires Run(states) && i <= j < |states|
    ensures states[i].generation <= states[j].generation
  {
    hide Inv, Enabled, Next;
    if i < j {
      GenerationsRise(states, i, j - 1);
      RunKeeps(states, j - 1);
      assert Steps(states[j - 1], states[j]);
      var e: Event :| Enabled(states[j - 1], e) && states[j] == Next(states[j - 1], e);
      StepKeeps(states[j - 1], e);
    }
  }

  /** A queued command keeps what it saw at receipt, until it is validated. */
  lemma CommandStays(s: State, e: Event, c: nat)
    requires Inv(s) && Enabled(s, e) && c in s.commands && e != Validated(c)
    ensures c in Next(s, e).commands && Next(s, e).commands[c] == s.commands[c]
  {
    StepLifts(s, e);
    hide Inv, Enter, Leave, StopNow, BeginRebuild, EndRebuild, Begin;
  }

  lemma {:induction false} CommandKept(states: seq<State>, i: nat, j: nat, c: nat)
    requires Run(states) && i <= j < |states| && c in states[i].commands
    requires forall k :: i <= k <= j ==> c in states[k].commands
    ensures states[j].commands[c] == states[i].commands[c]
  {
    hide Inv, Enabled, Next;
    if i < j {
      CommandKept(states, i, j - 1, c);
      assert Steps(states[j - 1], states[j]);
      var e: Event :| Enabled(states[j - 1], e) && states[j] == Next(states[j - 1], e);
      RunKeeps(states, j - 1);
      if e == Validated(c) { ValidatedIsGone(states[j - 1], c); } else { CommandStays(states[j - 1], e, c); }
    }
  }

  lemma ValidatedIsGone(s: State, c: nat)
    requires Enabled(s, Validated(c))
    ensures c !in Next(s, Validated(c)).commands
  {
  }

  /**
   * A command received before a detach or stop began, and validated after, never reaches a service
   * call: with the fence raised at step k between them, validation at j refuses.
   */
  lemma FencedCommandsNeverRun(states: seq<State>, i: nat, k: nat, j: nat, c: nat)
    requires Run(states) && i <= k < j < |states| && c in states[i].commands
    requires forall n :: i <= n <= j ==> c in states[n].commands
    requires states[k + 1].generation > states[k].generation
    ensures !Passes(states[j], states[j].commands[c])
    ensures Enabled(states[j], Validated(c)) ==> Next(states[j], Validated(c)).executed == states[j].executed
  {
    hide Enabled, Next, Leave, Begin, Enter;
    CommandKept(states, i, j, c);
    RunKeeps(states, i);
    GenerationsRise(states, i, k);
    GenerationsRise(states, k + 1, j);
    NotPassed(states[j], c);
  }

  lemma NotPassed(s: State, c: nat)
    requires c in s.commands
    ensures !Passes(s, s.commands[c]) && Enabled(s, Validated(c)) ==> Next(s, Validated(c)).executed == s.executed
  {
  }

  /** What does run was received under the fence generation it is validated under, and no other. */
  lemma OnlyCurrentCommandsRun(s: State, e: Event, c: nat)
    requires Inv(s) && Enabled(s, e) && c !in s.executed && c in Next(s, e).executed
    ensures e == Validated(c) && s.commands[c].generation == s.generation && !s.commands[c].hardAtReceipt
            && s.accept && s.started && !s.hard
  {
    StepLifts(s, e);
    hide Inv, Enter, Leave, StopNow, BeginRebuild, EndRebuild, Begin;
  }
}
