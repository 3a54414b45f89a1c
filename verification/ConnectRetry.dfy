/**
 * The bounded connect of an agent update: only the connect before anything is changed is repeated, the
 * fleet lock is given back while waiting, and a connect that may have offered the password is final.
 * Times are in milliseconds of a monotonic clock.
 */
module ConnectRetry {
  import opened Common

  const MAX_ATTEMPTS: nat := 5
  const DEADLINE: int := 120000
  const BASE_DELAY: int := 5000
  const MAX_DELAY: int := 30000

  /** How one connect went; `auth` when the password may have been offered, `repin` for the opt-in
      connect without a pinned key. */
  datatype Connect =
    | Connected(repin: bool)
    | HostKeyChanged
    | Fault(transient: bool, auth: bool, repin: bool)

  predicate MayHaveOffered(c: Connect) { c.Connected? || (c.Fault? && (c.auth || c.repin)) }

  datatype Action =
    | Acquire(at: int)
    | TimedOut(at: int)
    | Attempt(at: int, connect: Connect)
    | Body(at: int)
    | Release(at: int)
    | Sleep(at: int, delay: int)

  datatype Result = Yielded | KeyChanged | ConnectFailed(attempts: nat, shutdown: bool) | Cancelled

  function Power(n: nat): int { if n == 0 then 1 else 2 * Power(n - 1) }

  function Ceiling(failed: nat): int
    requires failed >= 1
  {
    var grown := BASE_DELAY * Power(failed - 1);
    if grown < MAX_DELAY then grown else MAX_DELAY
  }

  // ----- reading a trace -----

  /** Whether the fleet lock is held after the trace, or None if it was ever used out of turn. */
  function Locked(trace: seq<Action>): Option<bool> {
    if trace == [] then Some(false) else LockAfter(Locked(trace[..|trace| - 1]), trace[|trace| - 1])
  }

  function Attempts(trace: seq<Action>): nat {
    if trace == [] then 0 else Attempts(trace[..|trace| - 1]) + (if trace[|trace| - 1].Attempt? then 1 else 0)
  }

  /** Every attempt starts by the deadline. */
  predicate InTime(trace: seq<Action>, deadline: int) {
    forall i :: 0 <= i < |trace| && trace[i].Attempt? ==> trace[i].at <= deadline
  }

  /** Only plain network faults that offered nothing may be followed by another attempt. */
  predicate Harmless(trace: seq<Action>) {
    forall i :: 0 <= i < |trace| && trace[i].Attempt? ==>
      trace[i].connect.Fault? && trace[i].connect.transient && !MayHaveOffered(trace[i].connect)
  }

  /** All attempts but possibly the last one are harmless. */
  predicate AtMostLastOffers(trace: seq<Action>) {
    forall i, j :: 0 <= i < j < |trace| && trace[i].Attempt? && trace[j].Attempt? ==>
      trace[i].connect.Fault? && trace[i].connect.transient && !MayHaveOffered(trace[i].connect)
  }

  /** What one more action makes of the lock. */
  function LockAfter(held: Option<bool>, action: Action): Option<bool> {
    match held
    case None => None
    case Some(h) =>
      match action
      case Acquire(_) => if h then None else Some(true)
      case Release(_) => if h then Some(false) else None
      case Attempt(_, _) => if h then Some(true) else None
      case Body(_) => if h then Some(true) else None
      case TimedOut(_) => if h then None else Some(false)
      case Sleep(_, _) => if h then None else Some(false)
  }

  /** How the last attempt went. */
  function LastConnect(trace: seq<Action>): Option<Connect> {
    if trace == [] then None
    else
      var last := trace[|trace| - 1];
      if last.Attempt? then Some(last.connect) else LastConnect(trace[..|trace| - 1])
  }

  /** A good reason to give up after the attempts made: the last fault is final, or they are used up, or
      there is no time left to wait for another. */
  predicate GaveUp(trace: seq<Action>, ended: int, deadline: int) {
    && Attempts(trace) >= 1
    && LastConnect(trace).Some? && LastConnect(trace).value.Fault?
    && (|| !LastConnect(trace).value.transient || MayHaveOffered(LastConnect(trace).value)
        || Attempts(trace) == MAX_ATTEMPTS
        || ended + Ceiling(Attempts(trace)) > deadline)
  }

  predicate HasBody(trace: seq<Action>) { exists i :: 0 <= i < |trace| && trace[i].Body? }

  // ----- the order of things -----

  /** Where the connect stands: before its first try, with the lock and nothing tried, after a connect that holds,
      in the update's body, after a final answer, after a fault that may be tried again, at rest without the
      lock, and waiting. */
  datatype Phase = Idle | Held | Ready | InBody | Final | Retry | Rest | Waiting(until: int) | Over

  /** The one thing that may come next: a try needs the lock, the body a connect that holds, a second try a
      harmless fault, the lock given back, and a jittered wait that ends by the deadline and is slept out. */
  function Follow(phase: Phase, action: Action, attempts: nat, deadline: int): Option<Phase> {
    match phase
    case Idle => if action.Acquire? then Some(Held) else None
    case Held =>
      if action.Release? then Some(Over)
      else if !action.Attempt? || action.at > deadline then None
      else if action.connect.Connected? then Some(Ready)
      else if action.connect.Fault? && action.connect.transient && !action.connect.auth && !action.connect.repin
      then Some(Retry) else Some(Final)
    case Ready => if action.Body? then Some(InBody) else None
    case InBody => if action.Release? then Some(Over) else None
    case Final => if action.Release? then Some(Over) else None
    case Retry => if action.Release? then Some(Rest) else None
    case Rest =>
      if action.Sleep? && 1 <= attempts < 5 && Bounds(attempts).0 <= action.delay <= Bounds(attempts).1
         && action.at + action.delay <= deadline
      then Some(Waiting(action.at + action.delay)) else None
    case Waiting(until) =>
      if action.Acquire? && action.at >= until then Some(Held)
      else if action.TimedOut? && action.at >= deadline then Some(Over)
      else None
    case Over => None
  }

  /** The shortest and the longest wait after so many failed attempts. */
  function Bounds(failed: nat): (int, int) {
    if failed <= 1 then (2500, 5000) else if failed == 2 then (5000, 10000) else if failed == 3 then (10000, 20000)
    else (15000, 30000)
  }

  /** The phase a trace ends in, or None if something was out of order. */
  function Reads(trace: seq<Action>, deadline: int): Option<Phase> {
    if trace == [] then Some(Idle)
    else
      match Reads(trace[..|trace| - 1], deadline)
      case None => None
      case Some(phase) => Follow(phase, trace[|trace| - 1], Attempts(trace[..|trace| - 1]), deadline)
  }

  lemma BoundsAre(failed: nat)
    requires failed >= 1
    ensures Bounds(failed) == (Ceiling(failed) / 2, Ceiling(failed))
  {
    assert Power(0) == 1 && Power(1) == 2 && Power(2) == 4 && Power(3) == 8;
    if failed > 4 { PowerAtLeast(failed - 1, 3); }
  }

  lemma {:induction false} PowerAtLeast(n: nat, m: nat)
    requires n >= m
    ensures Power(n) >= Power(m)
  {
    if n > m { PowerAtLeast(n - 1, m); PowerGrows(n - 1); }
  }

  lemma {:induction false} ReadsPrefix(trace: seq<Action>, deadline: int, n: nat)
    requires n <= |trace| && Reads(trace, deadline).Some?
    ensures Reads(trace[..n], deadline).Some?
  {
    if n < |trace| {
      ReadsPrefix(trace[..|trace| - 1], deadline, n);
      assert trace[..|trace| - 1][..n] == trace[..n];
    } else {
      assert trace[..n] == trace;
    }
  }

  lemma ReadsLast(trace: seq<Action>, deadline: int, i: nat)
    requires i < |trace| && Reads(trace, deadline).Some?
    ensures Reads(trace[..i], deadline).Some? && Reads(trace[..i + 1], deadline).Some?
    ensures Reads(trace[..i + 1], deadline)
         == Follow(Reads(trace[..i], deadline).value, trace[i], Attempts(trace[..i]), deadline)
    ensures Reads(trace[..i], deadline).value.Idle? <==> i == 0
  {
    ReadsPrefix(trace, deadline, i + 1);
    ReadsPrefix(trace, deadline, i);
    assert trace[..i + 1][..i] == trace[..i];
  }

  /** How each phase is reached. */
  lemma Came(trace: seq<Action>, deadline: int, i: nat)
    requires i < |trace| && Reads(trace, deadline).Some?
    ensures var p, q := Reads(trace[..i], deadline), Reads(trace[..i + 1], deadline);
            && p.Some? && q.Some? && (p.value.Idle? <==> i == 0)
            && (trace[i].Acquire? ==> p.value.Idle? || (p.value.Waiting? && p.value.until <= trace[i].at))
            && (q.value.Retry? ==> trace[i].Attempt? && p.value.Held?)
            && (q.value.Held? ==> trace[i].Acquire?)
            && (q.value.Rest? ==> trace[i].Release? && p.value.Retry?)
            && (q.value.Waiting? ==>
                  trace[i].Sleep? && p.value.Rest? && q.value.until == trace[i].at + trace[i].delay <= deadline
                  && 1 <= Attempts(trace[..i]) < MAX_ATTEMPTS
                  && Bounds(Attempts(trace[..i])).0 <= trace[i].delay <= Bounds(Attempts(trace[..i])).1)
  {
    hide Reads, Attempts, Bounds;
    ReadsLast(trace, deadline, i);
  }

  /** Read off the trace: a second try comes after the lock was given back and the whole wait was slept. */
  lemma WaitsBetween(trace: seq<Action>, deadline: int, i: nat)
    requires Reads(trace, deadline).Some? && 0 < i < |trace| && trace[i].Acquire?
    ensures i >= 4 && trace[i - 1].Sleep? && trace[i].at >= trace[i - 1].at + trace[i - 1].delay
            && trace[i - 1].at + trace[i - 1].delay <= deadline
    ensures trace[i - 2].Release? && trace[i - 3].Attempt? && trace[i - 4].Acquire?
    ensures var failed := Attempts(trace[..i - 1]);
            1 <= failed < MAX_ATTEMPTS && Ceiling(failed) / 2 <= trace[i - 1].delay <= Ceiling(failed)
  {
    hide Reads, Attempts, Bounds, Follow, Ceiling;
    Came(trace, deadline, i);
    Came(trace, deadline, i - 1);
    assert i - 1 > 0;
    Came(trace, deadline, i - 2);
    assert i - 2 > 0;
    Came(trace, deadline, i - 3);
    assert i - 3 > 0;
    Came(trace, deadline, i - 4);
    BoundsAre(Attempts(trace[..i - 1]));
  }

  lemma Extend(trace: seq<Action>, action: Action, deadline: int)
    ensures var t := trace + [action];
            && Attempts(t) == Attempts(trace) + (if action.Attempt? then 1 else 0)
            && Locked(t) == LockAfter(Locked(trace), action)
            && Reads(t, deadline) == (match Reads(trace, deadline)
                                      case None => None
                                      case Some(phase) => Follow(phase, action, Attempts(trace), deadline))
            && LastConnect(t) == (if action.Attempt? then Some(action.connect) else LastConnect(trace))
            && (InTime(trace, deadline) && (action.Attempt? ==> action.at <= deadline) ==> InTime(t, deadline))
            && (HasBody(t) <==> HasBody(trace) || action.Body?)
            && (Harmless(trace) && !action.Attempt? ==> Harmless(t))
            && (AtMostLastOffers(trace) && !action.Attempt? ==> AtMostLastOffers(t))
            && (Harmless(trace) ==> AtMostLastOffers(t))
            && (Harmless(trace) && action.Attempt? && action.connect.Fault? && action.connect.transient
                && !MayHaveOffered(action.connect) ==>
                  Harmless(t))
  {
    var t := trace + [action];
    assert t[..|t| - 1] == trace;
    assert t[|trace|] == action;
    assert forall i :: 0 <= i < |trace| ==> t[i] == trace[i];
  }

  lemma Empty(deadline: int)
    ensures Attempts([]) == 0 && Locked([]) == Some(false) && InTime([], deadline) && !HasBody([])
            && LastConnect([]).None? && Harmless([]) && AtMostLastOffers([]) && Reads([], deadline) == Some(Idle)
  {
  }

  /** What a wait leaves behind: later, and perhaps shutting down; never on a quiet run. */
  method Wait(clock: int, shutdown: bool, quiet: bool) returns (later: int, down: bool)
    ensures clock <= later && (shutdown ==> down)
    ensures quiet ==> down == shutdown
  {
    later, down := clock, shutdown;
    if * { later :| clock <= later; }
    if !quiet {
      if * { down := true; }
    }
  }

  /** Whether the task was cancelled while it waited. */
  method CancelledHere(quiet: bool) returns (cancelled: bool)
    ensures quiet ==> !cancelled
  {
    cancelled := false;
    if !quiet {
      if * { cancelled := true; }
    }
  }

  /** The panel's answer, whatever it is. */
  method TryConnect() returns (connect: Connect)
  {
    var transient: bool, auth: bool, repin: bool := *, *, *;
    if * {
      connect := Connected(repin);
    } else if * {
      connect := HostKeyChanged;
    } else {
      connect := Fault(transient, auth, repin);
    }
  }

  /** The jittered delay stays between half its ceiling and the ceiling. */
  method Delay(failed: nat) returns (delay: int)
    requires failed >= 1
    ensures Ceiling(failed) / 2 <= delay <= Ceiling(failed)
    ensures 2500 <= delay <= MAX_DELAY && Bounds(failed).0 <= delay <= Bounds(failed).1
  {
    PowerGrows(failed - 1);
    BoundsAre(failed);
    delay := Ceiling(failed) / 2;
    if * { delay :| Ceiling(failed) / 2 <= delay <= Ceiling(failed); }
  }

  lemma {:induction false} PowerGrows(n: nat)
    ensures Power(n) >= 1
  {
    if n > 0 { PowerGrows(n - 1); }
  }

  /** One attempt under the lock, the body when it connects, and the lock given back. */
  method AttemptLocked(before: seq<Action>, now: int, deadline: int, shuttingDown: bool, quiet: bool)
      returns (connect: Connect, trace: seq<Action>, clock: int, down: bool)
    requires Locked(before) == Some(true) && InTime(before, deadline) && Harmless(before) && !HasBody(before)
             && now <= deadline && Reads(before, deadline) == Some(Held)
    ensures Locked(trace) == Some(false) && Attempts(trace) == Attempts(before) + 1 && before <= trace
    ensures InTime(trace, deadline) && AtMostLastOffers(trace)
    ensures HasBody(trace) <==> connect.Connected?
    ensures connect.Fault? && connect.transient && !MayHaveOffered(connect) ==> Harmless(trace)
    ensures LastConnect(trace) == Some(connect)
    ensures Reads(trace, deadline)
         == Some(if connect.Fault? && connect.transient && !MayHaveOffered(connect) then Rest else Over)
    ensures now <= clock && (shuttingDown ==> down) && (quiet ==> down == shuttingDown)
  {
    hide Locked, Attempts, InTime, Harmless, AtMostLastOffers, HasBody, LastConnect, Reads;
    connect := TryConnect();
    trace := before;
    Extend(trace, Attempt(now, connect), deadline);
    trace := trace + [Attempt(now, connect)];
    clock, down := Wait(now, shuttingDown, quiet);
    if connect.Connected? {
      Extend(trace, Body(clock), deadline);
      trace := trace + [Body(clock)];
      clock, down := Wait(clock, down, quiet);
    }
    Extend(trace, Release(clock), deadline);
    trace := trace + [Release(clock)];
  }

  /**
   * Connect, retrying transient faults: at most five attempts, none started later than 120 s after the
   * lock was first held, at most the last one may have offered the password or re-pinned, and the lock
   * is never held on return, while sleeping, or twice.
   */
  method LockedUpdateConnect(now: int, shuttingDown: bool, quiet: bool)
      returns (result: Result, trace: seq<Action>, deadline: int, ended: int)
    ensures Locked(trace) == Some(false)
    ensures Attempts(trace) <= MAX_ATTEMPTS
    ensures trace != [] ==> trace[0].Acquire? && deadline == trace[0].at + DEADLINE
    ensures InTime(trace, deadline) && AtMostLastOffers(trace)
    ensures result.Yielded? <==> HasBody(trace)
    ensures Reads(trace, deadline).Some?
    ensures result.KeyChanged? <==> LastConnect(trace) == Some(HostKeyChanged)
    ensures result.Yielded? || result.KeyChanged? ==> Reads(trace, deadline) == Some(Over)
    ensures result.ConnectFailed? ==> result.attempts == Attempts(trace)
    ensures result.ConnectFailed? && !result.shutdown ==> GaveUp(trace, ended, deadline)
    ensures quiet ==> !result.Cancelled? && (result.ConnectFailed? && result.shutdown ==> shuttingDown)
  {
    hide Locked, Attempts, InTime, Harmless, AtMostLastOffers, HasBody, MayHaveOffered, Ceiling, LastConnect;
    hide Reads, Bounds;
    trace := [];
    deadline := 0;
    Empty(deadline);
    var clock, down := now, shuttingDown;
    var attempt := 0;
    while true
      invariant attempt == Attempts(trace) < MAX_ATTEMPTS
      invariant Locked(trace) == Some(false) && !HasBody(trace)
      invariant attempt > 0 <==> trace != []
      invariant trace != [] ==> trace[0].Acquire? && deadline == trace[0].at + DEADLINE
      invariant InTime(trace, deadline) && Harmless(trace) && AtMostLastOffers(trace)
      invariant attempt > 0 ==> LastConnect(trace).Some? && LastConnect(trace).value.Fault?
      invariant quiet ==> down == shuttingDown
      invariant Reads(trace, deadline).Some?
      invariant if attempt == 0 then Reads(trace, deadline) == Some(Idle)
                else Reads(trace, deadline).value.Waiting? && Reads(trace, deadline).value.until <= clock
      decreases MAX_ATTEMPTS - attempt
    {
      attempt := attempt + 1;
      if attempt > 1 { CeilingIsPositive(attempt - 1); }
      if attempt > 1 && deadline - clock <= 0 { return ConnectFailed(attempt - 1, false), trace, deadline, clock; }
      clock, down := Wait(clock, down, quiet);
      var cancelled := CancelledHere(quiet);
      if cancelled { return Cancelled, trace, deadline, clock; }
      if attempt > 1 {
        var expired := false;
        if clock >= deadline { expired := *; }
        if expired {
          Extend(trace, TimedOut(clock), deadline);
          trace := trace + [TimedOut(clock)];
          return ConnectFailed(attempt - 1, false), trace, deadline, clock;
        }
      } else {
        deadline := clock + DEADLINE;
        Empty(deadline);
      }
      Extend(trace, Acquire(clock), deadline);
      trace := trace + [Acquire(clock)];
      if down || (attempt > 1 && clock > deadline) {
        Extend(trace, Release(clock), deadline);
        trace := trace + [Release(clock)];
        return ConnectFailed(attempt - 1, down), trace, deadline, clock;
      }
      var connect;
      connect, trace, clock, down := AttemptLocked(trace, clock, deadline, down, quiet);
      if connect.Connected? { return Yielded, trace, deadline, clock; }
      if connect.HostKeyChanged? { return KeyChanged, trace, deadline, clock; }
      cancelled := CancelledHere(quiet);
      if cancelled { return Cancelled, trace, deadline, clock; }
      if MayHaveOffered(connect) || !connect.transient || attempt >= MAX_ATTEMPTS {
        return ConnectFailed(attempt, false), trace, deadline, clock;
      }
      if down { return ConnectFailed(attempt, true), trace, deadline, clock; }
      var delay := Delay(attempt);
      if clock + delay > deadline { return ConnectFailed(attempt, false), trace, deadline, clock; }
      Extend(trace, Sleep(clock, delay), deadline);
      trace := trace + [Sleep(clock, delay)];
      clock := clock + delay;
      clock, down := Wait(clock, down, quiet);
      cancelled := CancelledHere(quiet);
      if cancelled { return Cancelled, trace, deadline, clock; }
      if down { return ConnectFailed(attempt, true), trace, deadline, clock; }
    }
  }

  lemma CeilingIsPositive(failed: nat)
    requires failed >= 1
    ensures Ceiling(failed) > 0
  {
    PowerGrows(failed - 1);
  }
}
