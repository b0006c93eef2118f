/** The per-shard operation locks of a direct store, as a step machine.

    A read-write operation locks the shard of its key, or every shard in ascending
    order, runs its handler one cache access at a time, and unlocks.  Raw puts and
    deletes are single-shard operations with one access.  Any number of threads
    interleave. */
module DirectLocks {
  import opened Store

  type Key = nat
  type Bytes = seq<nat>
  type Shard = map<Key, Bytes>

  /** A handler's local state. */
  type Local = seq<Bytes>

  /** What a handler does next: finish, or access one shard. */
  datatype Action = Finish | Touch(shard: nat, body: (Local, Shard) -> (Local, Shard))
  datatype Scope = One(shard: nat) | All
  datatype Op = Op(scope: Scope, program: Local -> Action, start: Local)

  predicate InScope(scope: Scope, shard: nat)
  {
    scope == All || scope == One(shard)
  }

  /** The shard of a key exists. */
  predicate Routed(n: nat, op: Op) { op.scope.One? ==> op.scope.shard < n }

  /** The handler touches only what its operation locks.  Nothing enforces this. */
  ghost predicate Confined(op: Op)
  {
    forall l :: op.program(l).Touch? ==> InScope(op.scope, op.program(l).shard)
  }

  // ---------- an operation by itself ----------

  function Access(op: Op, l: Local, shards: seq<Shard>): (r: (Local, seq<Shard>))
    ensures |r.1| == |shards|
  {
    match op.program(l)
    case Finish => (l, shards)
    case Touch(s, body) =>
      if s < |shards| then
        var (l', shard) := body(l, shards[s]);
        (l', shards[s := shard])
      else (l, shards)
  }

  /** The first `n` accesses of an operation running alone. */
  function Alone(op: Op, n: nat, shards: seq<Shard>): (r: (Local, seq<Shard>))
    ensures |r.1| == |shards|
  {
    if n == 0 then (op.start, shards)
    else
      var (l, mid) := Alone(op, n - 1, shards);
      Access(op, l, mid)
  }

  ghost predicate AgreeOn(scope: Scope, a: seq<Shard>, b: seq<Shard>)
  {
    |a| == |b| && forall s :: 0 <= s < |a| && InScope(scope, s) ==> a[s] == b[s]
  }

  ghost predicate AgreeOff(scope: Scope, a: seq<Shard>, b: seq<Shard>)
  {
    |a| == |b| && forall s :: 0 <= s < |a| && !InScope(scope, s) ==> a[s] == b[s]
  }

  /** A confined operation reads and writes only its scope. */
  lemma {:induction false} AloneConfined(op: Op, n: nat, a: seq<Shard>, b: seq<Shard>)
    requires Confined(op) && AgreeOn(op.scope, a, b)
    ensures Alone(op, n, a).0 == Alone(op, n, b).0
    ensures AgreeOn(op.scope, Alone(op, n, a).1, Alone(op, n, b).1)
    ensures AgreeOff(op.scope, Alone(op, n, a).1, a)
  {
    if n > 0 { AloneConfined(op, n - 1, a, b); }
  }

  // ---------- the machine ----------

  datatype Phase =
    | Idle
    | Locking(op: Op, next: nat)
    | Running(op: Op, local: Local, count: nat)
    | Unlocking(op: Op, next: nat)

  /** A finished operation: how many accesses it made and its final local state. */
  datatype Entry = Entry(op: Op, count: nat, result: Local)

  datatype State = State(shards: seq<Shard>, owner: seq<Option<nat>>, threads: seq<Phase>, log: seq<Entry>)

  datatype Step =
    | Begin(t: nat, op: Op)
    | Lock(t: nat)
    | Enter(t: nat)
    | Run(t: nat)
    | Commit(t: nat)
    | Unlock(t: nat)
    | Leave(t: nat)

  function LockCount(n: nat, scope: Scope): (c: nat) { if scope.One? then 1 else n }

  /** The `i`-th lock an operation takes. */
  function LockAt(scope: Scope, i: nat): (s: nat) { if scope.One? then scope.shard else i }

  predicate Holds(n: nat, ph: Phase, s: nat)
  {
    match ph
    case Idle => false
    case Locking(op, next) => if op.scope.One? then next == 1 && s == op.scope.shard else s < next
    case Running(op, _, _) => s < n && InScope(op.scope, s)
    case Unlocking(op, next) => s < n && (if op.scope.One? then next == 0 && s == op.scope.shard else next <= s)
  }

  predicate Enabled(s: State, step: Step)
  {
    && step.t < |s.threads|
    && var n, ph := |s.owner|, s.threads[step.t];
       match step
       case Begin(_, op) => ph == Idle && Routed(n, op)
       case Lock(_) =>
         && ph.Locking? && ph.next < LockCount(n, ph.op.scope)
         && LockAt(ph.op.scope, ph.next) < n && s.owner[LockAt(ph.op.scope, ph.next)] == None
       case Enter(_) => ph.Locking? && ph.next == LockCount(n, ph.op.scope)
       case Run(_) => ph.Running? && ph.op.program(ph.local).Touch?
       case Commit(_) => ph.Running? && ph.op.program(ph.local).Finish?
       case Unlock(_) => ph.Unlocking? && ph.next < LockCount(n, ph.op.scope) && LockAt(ph.op.scope, ph.next) < n
       case Leave(_) => ph.Unlocking? && ph.next == LockCount(n, ph.op.scope)
  }

  function Do(s: State, step: Step): (s': State)
    requires Enabled(s, step)
  {
    var ph := s.threads[step.t];
    match step
    case Begin(t, op) => s.(threads := s.threads[t := Locking(op, 0)])
    case Lock(t) => s.(owner := s.owner[LockAt(ph.op.scope, ph.next) := Some(t)], threads := s.threads[t := Locking(ph.op, ph.next + 1)])
    case Enter(t) => s.(threads := s.threads[t := Running(ph.op, ph.op.start, 0)])
    case Run(t) =>
      var (l, shards) := Access(ph.op, ph.local, s.shards);
      s.(shards := shards, threads := s.threads[t := Running(ph.op, l, ph.count + 1)])
    case Commit(t) => s.(log := s.log + [Entry(ph.op, ph.count, ph.local)], threads := s.threads[t := Unlocking(ph.op, 0)])
    case Unlock(t) => s.(owner := s.owner[LockAt(ph.op.scope, ph.next) := None], threads := s.threads[t := Unlocking(ph.op, ph.next + 1)])
    case Leave(t) => s.(threads := s.threads[t := Idle])
  }

  ghost predicate Init(init: seq<Shard>, s: State)
  {
    && s.shards == init && s.log == []
    && |s.owner| == |init| && (forall i :: 0 <= i < |init| ==> s.owner[i] == None)
    && forall t :: 0 <= t < |s.threads| ==> s.threads[t] == Idle
  }

  ghost predicate IsRun(init: seq<Shard>, states: seq<State>, steps: seq<Step>)
  {
    && |states| == |steps| + 1
    && Init(init, states[0])
    && forall i :: 0 <= i < |steps| ==> Enabled(states[i], steps[i]) && states[i + 1] == Do(states[i], steps[i])
  }

  /** Every operation begun in the run touches only what it locks. */
  ghost predicate ConfinedRun(steps: seq<Step>)
  {
    forall i :: 0 <= i < |steps| && steps[i].Begin? ==> Confined(steps[i].op)
  }

  predicate NobodyRunning(s: State) { forall t :: 0 <= t < |s.threads| ==> !s.threads[t].Running? }

  // ---------- the serial order ----------

  /** The contents after the logged operations, one at a time. */
  function Serial(init: seq<Shard>, log: seq<Entry>): (r: seq<Shard>)
    ensures |r| == |init|
  {
    if log == [] then init
    else Alone(log[|log| - 1].op, log[|log| - 1].count, Serial(init, log[..|log| - 1])).1
  }

  /** Each operation of the log, run to its end at its place, gives its result. */
  ghost predicate SerialResults(init: seq<Shard>, log: seq<Entry>)
  {
    forall i :: 0 <= i < |log| ==>
      var e := log[i];
      Alone(e.op, e.count, Serial(init, log[..i])).0 == e.result && e.op.program(e.result).Finish?
  }

  /** The finished operations could have been run one at a time, in some order. */
  ghost predicate Explained(init: seq<Shard>, s: State)
  {
    exists log :: multiset(log) == multiset(s.log) && SerialResults(init, log) && Serial(init, log) == s.shards
  }

  // ---------- the invariant ----------

  ghost predicate Shape(s: State)
  {
    && |s.owner| == |s.shards|
    && forall t :: 0 <= t < |s.threads| ==>
         var n, ph := |s.owner|, s.threads[t];
         && (!ph.Idle? ==> Routed(n, ph.op))
         && (ph.Locking? || ph.Unlocking? ==> ph.next <= LockCount(n, ph.op.scope))
  }

  /** A lock is owned by exactly the thread whose phase holds it. */
  ghost predicate Owned(s: State)
  {
    forall t, i :: 0 <= t < |s.threads| && 0 <= i < |s.owner| ==>
      (s.owner[i] == Some(t) <==> Holds(|s.owner|, s.threads[t], i))
  }

  /** Locks have live owners. */
  ghost predicate Known(s: State)
  {
    forall i :: 0 <= i < |s.owner| && s.owner[i].Some? ==> s.owner[i].value < |s.threads|
  }

  ghost predicate RunningAt(s: State, i: nat)
  {
    i < |s.owner| && s.owner[i].Some? && s.owner[i].value < |s.threads| && s.threads[s.owner[i].value].Running?
  }

  /** Under a running operation a shard holds that operation's partial effect on the
      serial contents; elsewhere it holds the serial contents. */
  ghost predicate Contents(init: seq<Shard>, s: State)
  {
    && |init| == |s.shards| == |s.owner|
    && (forall t :: 0 <= t < |s.threads| && s.threads[t].Running? ==>
         var ph := s.threads[t];
         var (l, shards) := Alone(ph.op, ph.count, Serial(init, s.log));
         ph.local == l && AgreeOn(ph.op.scope, shards, s.shards))
    && forall i :: 0 <= i < |s.shards| && !RunningAt(s, i) ==> s.shards[i] == Serial(init, s.log)[i]
  }

  /** What the locks promise, whatever the handlers do. */
  ghost predicate LockInv(s: State) { Shape(s) && Owned(s) && Known(s) }

  ghost predicate ConfinedAll(s: State)
  {
    forall t :: 0 <= t < |s.threads| && !s.threads[t].Idle? ==> Confined(s.threads[t].op)
  }

  ghost predicate Inv(init: seq<Shard>, s: State)
  {
    LockInv(s) && ConfinedAll(s) && Contents(init, s) && SerialResults(init, s.log)
  }
}
