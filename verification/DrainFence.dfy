/** The fence that keeps callers out of a direct store while it closes.

    `CallFence` is the counter, flag and wake-up channel that three critical sections
    update under one mutex.  The machine interleaves those sections for any number of
    callers and any number of drains. */
module DrainFence {
  import opened Store

  /** `made` counts the channels created; `closed` lists the closings in order. */
  datatype Fence = Fence(calls: int, draining: bool, idle: Option<nat>, made: nat, closed: seq<nat>)

  // ---------- the critical sections ----------

  function Entered(f: Fence): (r: (bool, Fence))
  {
    if f.draining then (false, f) else (true, f.(calls := f.calls + 1))
  }

  function Exited(f: Fence): (f': Fence)
  {
    if f.draining && f.calls == 1 && f.idle.Some?
    then f.(calls := 0, idle := None, closed := f.closed + [f.idle.value])
    else f.(calls := f.calls - 1)
  }

  /** The first half of a drain: the channel to wait on, or nothing to wait for. */
  function DrainStarted(f: Fence): (r: (Option<nat>, Fence))
  {
    if f.calls == 0 then (None, f.(draining := true))
    else if f.idle.Some? then (f.idle, f.(draining := true))
    else (Some(f.made), f.(draining := true, idle := Some(f.made), made := f.made + 1))
  }

  predicate NoRepeats(s: seq<nat>)
  {
    forall i, j :: 0 <= i < j < |s| ==> s[i] != s[j]
  }

  class CallFence {
    var calls: int
    var callsDraining: bool
    var callsIdle: Option<nat>
    var made: nat
    var closed: seq<nat>

    /** The calls under way, and the channels drains were given to wait on. */
    ghost var inside: set<nat>
    ghost var awaited: set<nat>

    ghost function Value(): (f: Fence)
      reads this
    {
      Fence(calls, callsDraining, callsIdle, made, closed)
    }

    /** A channel somebody waits on is closed exactly when nobody is inside, and none is
        closed twice. */
    ghost predicate Valid()
      reads this
    {
      && calls == |inside|
      && (awaited != {} || closed != [] || callsIdle.Some? ==> callsDraining)
      && (forall ch :: ch in awaited ==> (ch in closed <==> inside == {}) && (ch in closed || callsIdle == Some(ch)))
      && (callsIdle.Some? ==> inside != {} && callsIdle.value < made && callsIdle.value !in closed)
      && NoRepeats(closed) && (forall ch :: ch in closed ==> ch < made)
      && (closed != [] ==> inside == {})
    }

    constructor ()
      ensures Valid() && Value() == Fence(0, false, None, 0, []) && inside == {} && awaited == {}
    {
      calls, callsDraining, callsIdle, made, closed := 0, false, None, 0, [];
      inside, awaited := {}, {};
    }

    /** A call gets in exactly if no drain has started. */
    method BeginCall(ghost who: nat) returns (admitted: bool)
      requires Valid() && who !in inside
      modifies this
      ensures Valid() && awaited == old(awaited) && callsDraining == old(callsDraining)
      ensures admitted <==> !old(callsDraining)
      ensures inside == old(inside) + if admitted then {who} else {}
      ensures (admitted, Value()) == Entered(old(Value()))
    {
      if callsDraining { return false; }
      calls := calls + 1;
      inside := inside + {who};
      admitted := true;
    }

    /** The last call out closes every channel a drain waits on, and no call before it. */
    method EndCall(ghost who: nat)
      requires Valid() && who in inside
      modifies this
      ensures Valid() && awaited == old(awaited) && callsDraining == old(callsDraining)
      ensures inside == old(inside) - {who}
      ensures forall ch :: ch in awaited ==> (ch in closed <==> inside == {})
      ensures Value() == Exited(old(Value()))
    {
      calls := calls - 1;
      inside := inside - {who};
      if callsDraining && calls == 0 && callsIdle.Some? {
        closed := closed + [callsIdle.value];
        callsIdle := None;
      }
    }

    /** From now on nobody gets in.  There is a channel to wait on exactly if somebody is
        inside, and it is open. */
    method StartDrain() returns (wait: Option<nat>)
      requires Valid()
      modifies this
      ensures Valid() && callsDraining && inside == old(inside)
      ensures wait.Some? <==> inside != {}
      ensures wait.Some? ==> wait.value !in closed
      ensures awaited == old(awaited) + if wait.Some? then {wait.value} else {}
      ensures (wait, Value()) == DrainStarted(old(Value()))
    {
      callsDraining := true;
      if calls == 0 { return None; }
      if callsIdle.None? {
        callsIdle := Some(made);
        made := made + 1;
      }
      wait := callsIdle;
      awaited := awaited + {wait.value};
    }
  }

  // ---------- the machine ----------

  datatype Caller = Outside | Inside | Refused
  datatype Drain = Ready | Waiting(channel: nat) | Returned(quiet: bool)
  datatype State = State(fence: Fence, callers: seq<Caller>, drains: seq<Drain>)

  datatype Step =
    | Begin(c: nat)
    | End(c: nat)
    | Start(d: nat)
    | Wake(d: nat)
    | Expire(d: nat)

  predicate Enabled(s: State, step: Step)
  {
    match step
    case Begin(c) => c < |s.callers| && s.callers[c] != Inside
    case End(c) => c < |s.callers| && s.callers[c] == Inside
    case Start(d) => d < |s.drains| && !s.drains[d].Waiting?
    case Wake(d) => d < |s.drains| && s.drains[d].Waiting? && s.drains[d].channel in s.fence.closed
    case Expire(d) => d < |s.drains| && s.drains[d].Waiting?
  }

  function Do(s: State, step: Step): (s': State)
    requires Enabled(s, step)
  {
    match step
    case Begin(c) =>
      var (admitted, f) := Entered(s.fence);
      s.(fence := f, callers := s.callers[c := if admitted then Inside else Refused])
    case End(c) => s.(fence := Exited(s.fence), callers := s.callers[c := Outside])
    case Start(d) =>
      var (wait, f) := DrainStarted(s.fence);
      s.(fence := f, drains := s.drains[d := if wait.None? then Returned(true) else Waiting(wait.value)])
    case Wake(d) => s.(drains := s.drains[d := Returned(true)])
    case Expire(d) => s.(drains := s.drains[d := Returned(false)])
  }

  predicate Init(s: State)
  {
    && s.fence == Fence(0, false, None, 0, [])
    && (forall c :: 0 <= c < |s.callers| ==> s.callers[c] == Outside)
    && forall d :: 0 <= d < |s.drains| ==> s.drains[d] == Ready
  }

  ghost predicate IsRun(states: seq<State>, steps: seq<Step>)
  {
    && |states| == |steps| + 1
    && Init(states[0])
    && forall i :: 0 <= i < |steps| ==> Enabled(states[i], steps[i]) && states[i + 1] == Do(states[i], steps[i])
  }

  // ---------- the invariant ----------

  function Count(callers: seq<Caller>): (n: nat)
  {
    if callers == [] then 0 else Count(callers[1..]) + if callers[0] == Inside then 1 else 0
  }

  /** The open channel, if any, is the newest; a waiting drain's channel is that one
      or already closed; a drain that returned quiet found nobody inside. */
  ghost predicate Inv(s: State)
  {
    var f := s.fence;
    && f.calls == Count(s.callers)
    && (f.idle.Some? ==> f.draining && f.calls > 0 && f.idle.value < f.made && f.idle.value !in f.closed)
    && (forall c :: c in f.closed ==> c < f.made)
    && NoRepeats(f.closed)
    && (f.closed != [] ==> f.draining && f.calls == 0)
    && forall d :: 0 <= d < |s.drains| ==>
         && (s.drains[d] != Ready ==> f.draining)
         && (s.drains[d].Waiting? ==> s.drains[d].channel in f.closed || f.idle == Some(s.drains[d].channel))
         && (s.drains[d] == Returned(true) ==> f.calls == 0)
  }

  lemma {:induction false} CountChange(callers: seq<Caller>, c: nat, to: Caller)
    requires c < |callers|
    ensures Count(callers[c := to]) ==
            Count(callers) - (if callers[c] == Inside then 1 else 0) + (if to == Inside then 1 else 0)
  {
    if c > 0 {
      assert callers[c := to][1..] == callers[1..][c - 1 := to];
      CountChange(callers[1..], c - 1, to);
    } else {
      assert callers[c := to][1..] == callers[1..];
    }
  }

  lemma {:induction false} CountInside(callers: seq<Caller>, c: nat)
    requires c < |callers| && callers[c] == Inside
    ensures Count(callers) > 0
  {
    if c > 0 { CountInside(callers[1..], c - 1); }
  }

  lemma {:induction false} CountNone(callers: seq<Caller>)
    requires forall c :: 0 <= c < |callers| ==> callers[c] != Inside
    ensures Count(callers) == 0
  {
    if callers != [] { CountNone(callers[1..]); }
  }

  lemma StepKeeps(s: State, step: Step)
    requires Inv(s) && Enabled(s, step)
    ensures Inv(Do(s, step))
    ensures s.fence.draining ==> Do(s, step).fence.draining
    ensures s.fence.draining ==> Do(s, step).fence.calls <= s.fence.calls
  {
    match step
    case Begin(c) =>
      CountChange(s.callers, c, Inside);
      CountChange(s.callers, c, Refused);
    case End(c) =>
      CountChange(s.callers, c, Outside);
      CountInside(s.callers, c);
    case _ =>
  }

  lemma {:induction false} RunInv(states: seq<State>, steps: seq<Step>, n: nat)
    requires IsRun(states, steps) && n < |states|
    ensures Inv(states[n])
  {
    if n == 0 {
      CountNone(states[0].callers);
    } else {
      RunInv(states, steps, n - 1);
      StepKeeps(states[n - 1], steps[n - 1]);
    }
  }

  lemma {:induction false} StaysQuiet(states: seq<State>, steps: seq<Step>, n: nat, m: nat)
    requires IsRun(states, steps) && n <= m < |states|
    requires states[n].fence.draining && states[n].fence.calls == 0
    ensures states[m].fence.draining && states[m].fence.calls == 0
    decreases m
  {
    RunInv(states, steps, m);
    if m > n {
      StaysQuiet(states, steps, n, m - 1);
      RunInv(states, steps, m - 1);
      StepKeeps(states[m - 1], steps[m - 1]);
    }
  }

  // ---------- the theorems ----------

  /** Once any drain has returned true, no caller is inside, then or ever after. */
  lemma QuietAfterDrain(states: seq<State>, steps: seq<Step>, n: nat, d: nat, m: nat, c: nat)
    requires IsRun(states, steps) && n <= m < |states|
    requires d < |states[n].drains| && states[n].drains[d] == Returned(true)
    requires c < |states[m].callers|
    ensures states[m].callers[c] != Inside
  {
    RunInv(states, steps, n);
    RunInv(states, steps, m);
    StaysQuiet(states, steps, n, m);
    if states[m].callers[c] == Inside { CountInside(states[m].callers, c); }
  }

  /** No channel is ever closed twice. */
  lemma ClosedOnce(states: seq<State>, steps: seq<Step>)
    requires IsRun(states, steps)
    ensures NoRepeats(states[|steps|].fence.closed)
  {
    RunInv(states, steps, |steps|);
  }

  /** As soon as the last caller has left, every waiting drain can wake up. */
  lemma DrainsWake(states: seq<State>, steps: seq<Step>, d: nat)
    requires IsRun(states, steps)
    requires var s := states[|steps|];
      d < |s.drains| && s.drains[d].Waiting? && forall c :: 0 <= c < |s.callers| ==> s.callers[c] != Inside
    ensures Enabled(states[|steps|], Wake(d))
  {
    RunInv(states, steps, |steps|);
    CountNone(states[|steps|].callers);
  }

  /** And no earlier: a drain that can wake up has nobody to wait for. */
  lemma WakesOnlyWhenQuiet(states: seq<State>, steps: seq<Step>, d: nat, c: nat)
    requires IsRun(states, steps) && Enabled(states[|steps|], Wake(d)) && c < |states[|steps|].callers|
    ensures states[|steps|].callers[c] != Inside
  {
    RunInv(states, steps, |steps|);
    if states[|steps|].callers[c] == Inside { CountInside(states[|steps|].callers, c); }
  }

  /** Nobody is admitted once a drain has started. */
  lemma RefusedWhileDraining(states: seq<State>, steps: seq<Step>, n: nat, d: nat, m: nat, c: nat)
    requires IsRun(states, steps) && n <= m < |steps|
    requires d < |states[n].drains| && states[n].drains[d] != Ready
    requires steps[m] == Begin(c)
    ensures states[m + 1].callers[c] == Refused && states[m + 1].fence == states[m].fence
  {
    DrainingStays(states, steps, n, m, d);
  }

  lemma {:induction false} DrainingStays(states: seq<State>, steps: seq<Step>, n: nat, m: nat, d: nat)
    requires IsRun(states, steps) && n <= m < |states|
    requires d < |states[n].drains| && states[n].drains[d] != Ready
    ensures states[m].fence.draining
    decreases m
  {
    RunInv(states, steps, n);
    if m > n {
      DrainingStays(states, steps, n, m - 1, d);
      RunInv(states, steps, m - 1);
      StepKeeps(states[m - 1], steps[m - 1]);
    }
  }
}
