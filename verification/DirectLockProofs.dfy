/** No interleaving of the direct store's locked operations deadlocks, and every one in
    which the operations touch only what they lock is equivalent to running them one at
    a time. */
module DirectLockProofs {
  import opened Store
  import opened DirectLocks

  // ---------- lock ownership ----------

  lemma LocksKeep(s: State, step: Step)
    requires LockInv(s) && Enabled(s, step)
    ensures Shape(Do(s, step)) && Known(Do(s, step))
  {}

  lemma OwnedKeeps(s: State, step: Step)
    requires LockInv(s) && Enabled(s, step)
    ensures Owned(Do(s, step))
  {
    var s' := Do(s, step);
    forall t, i | 0 <= t < |s'.threads| && 0 <= i < |s'.owner|
      ensures s'.owner[i] == Some(t) <==> Holds(|s'.owner|, s'.threads[t], i)
    {
      assert s.owner[i] == Some(t) <==> Holds(|s.owner|, s.threads[t], i);
      if step.Lock? && t != step.t {
        var ph := s.threads[step.t];
        assert s.owner[LockAt(ph.op.scope, ph.next)] == None;
      }
      if step.Unlock? && t != step.t {
        var ph := s.threads[step.t];
        assert Holds(|s.owner|, ph, LockAt(ph.op.scope, ph.next));
      }
    }
  }

  /** Running operations have disjoint scopes. */
  lemma Exclusive(s: State, t: nat, u: nat, i: nat)
    requires Shape(s) && Owned(s) && t < |s.threads| && u < |s.threads| && t != u && i < |s.owner|
    requires s.threads[t].Running? && s.threads[u].Running?
    ensures !InScope(s.threads[t].op.scope, i) || !InScope(s.threads[u].op.scope, i)
  {
    assert s.owner[i] == Some(t) <==> Holds(|s.owner|, s.threads[t], i);
    assert s.owner[i] == Some(u) <==> Holds(|s.owner|, s.threads[u], i);
  }

  // ---------- contents ----------

  /** What `Contents` says of one running thread. */
  ghost predicate Partial(base: seq<Shard>, ph: Phase, shards: seq<Shard>)
    requires ph.Running?
  {
    var (l, mine) := Alone(ph.op, ph.count, base);
    ph.local == l && AgreeOn(ph.op.scope, mine, shards)
  }

  /** Steps that neither access a shard nor finish an operation. */
  lemma LockStepContents(init: seq<Shard>, s: State, step: Step)
    requires LockInv(s) && ConfinedAll(s) && Contents(init, s) && Enabled(s, step)
    requires !step.Run? && !step.Commit?
    ensures Contents(init, Do(s, step))
  {
    hide Alone, Serial;
    var s', t := Do(s, step), step.t;
    forall i | 0 <= i < |s.shards| ensures RunningAt(s', i) <==> RunningAt(s, i) || (step.Enter? && InScope(s.threads[t].op.scope, i)) {
      assert s.owner[i] == Some(t) <==> Holds(|s.owner|, s.threads[t], i);
      if step.Unlock? {
        var ph := s.threads[t];
        assert Holds(|s.owner|, ph, LockAt(ph.op.scope, ph.next));
        assert s.owner[LockAt(ph.op.scope, ph.next)] == Some(t);
      }
    }
    if step.Enter? { EnterContents(init, s, t); }
  }

  lemma EnterContents(init: seq<Shard>, s: State, t: nat)
    requires Shape(s) && Owned(s) && Contents(init, s) && Enabled(s, Enter(t))
    ensures Partial(Serial(init, s.log), Do(s, Enter(t)).threads[t], s.shards)
  {
    var ph := s.threads[t];
    forall i | 0 <= i < |s.shards| && InScope(ph.op.scope, i) ensures s.shards[i] == Serial(init, s.log)[i] {
      assert s.owner[i] == Some(t) <==> Holds(|s.owner|, ph, i);
      assert !RunningAt(s, i);
    }
  }

  /** An access moves the running operation's own partial effect on by one. */
  lemma RunOwn(base: seq<Shard>, ph: Phase, shards: seq<Shard>)
    requires ph.Running? && Confined(ph.op) && |base| == |shards| && Partial(base, ph, shards) && ph.op.program(ph.local).Touch?
    ensures var (l, shards') := Access(ph.op, ph.local, shards);
            Partial(base, Running(ph.op, l, ph.count + 1), shards') && AgreeOff(ph.op.scope, shards, shards')
  {
  }

  /** And leaves the others' alone. */
  lemma RunOther(base: seq<Shard>, s: State, t: nat, u: nat)
    requires Shape(s) && Owned(s) && ConfinedAll(s) && Enabled(s, Run(t)) && |base| == |s.shards|
    requires u < |s.threads| && u != t && s.threads[u].Running? && Partial(base, s.threads[u], s.shards)
    requires AgreeOff(s.threads[t].op.scope, s.shards, Do(s, Run(t)).shards)
    ensures Partial(base, s.threads[u], Do(s, Run(t)).shards)
  {
    hide Alone, Do;
    forall i | 0 <= i < |s.shards| && InScope(s.threads[u].op.scope, i) ensures s.shards[i] == Do(s, Run(t)).shards[i] {
      Exclusive(s, t, u, i);
    }
  }

  lemma RunContents(init: seq<Shard>, s: State, t: nat)
    requires LockInv(s) && ConfinedAll(s) && Contents(init, s) && Enabled(s, Run(t))
    ensures Contents(init, Do(s, Run(t)))
  {
    var s', ph, base := Do(s, Run(t)), s.threads[t], Serial(init, s.log);
    hide Alone, Serial;
    assert Partial(base, ph, s.shards);
    RunOwn(base, ph, s.shards);
    hide Access;
    forall u | 0 <= u < |s.threads| && u != t && s.threads[u].Running? ensures Partial(base, s'.threads[u], s'.shards) {
      assert Partial(base, s.threads[u], s.shards);
      RunOther(base, s, t, u);
    }
    forall i | 0 <= i < |s.shards| && !RunningAt(s', i) ensures s'.shards[i] == base[i] {
      assert s.owner[i] == Some(t) <==> Holds(|s.owner|, ph, i);
      assert !RunningAt(s, i) && !InScope(ph.op.scope, i);
    }
  }

  lemma SerialSnoc(init: seq<Shard>, log: seq<Entry>, e: Entry)
    ensures Serial(init, log + [e]) == Alone(e.op, e.count, Serial(init, log)).1
  {
    assert (log + [e])[..|log|] == log;
  }

  /** Finishing an operation leaves the others' partial effects as they were. */
  lemma CommitOthers(init: seq<Shard>, s: State, t: nat, u: nat)
    requires Shape(s) && Owned(s) && ConfinedAll(s) && Contents(init, s) && Enabled(s, Commit(t))
    requires u < |s.threads| && u != t && s.threads[u].Running?
    ensures Partial(Serial(init, Do(s, Commit(t)).log), s.threads[u], s.shards)
  {
    var ph, pu, base := s.threads[t], s.threads[u], Serial(init, s.log);
    SerialSnoc(init, s.log, Entry(ph.op, ph.count, ph.local));
    var base' := Alone(ph.op, ph.count, base).1;
    AloneConfined(ph.op, ph.count, base, base);
    forall i | 0 <= i < |base| && InScope(pu.op.scope, i) ensures base[i] == base'[i] { Exclusive(s, t, u, i); }
    hide Alone;
    assert Partial(base, pu, s.shards);
    AloneConfined(pu.op, pu.count, base, base');
  }

  lemma CommitElsewhere(init: seq<Shard>, s: State, t: nat, i: nat)
    requires Shape(s) && Owned(s) && ConfinedAll(s) && Contents(init, s) && Enabled(s, Commit(t))
    requires i < |s.shards| && !RunningAt(Do(s, Commit(t)), i)
    ensures s.shards[i] == Serial(init, Do(s, Commit(t)).log)[i]
  {
    var ph, base := s.threads[t], Serial(init, s.log);
    SerialSnoc(init, s.log, Entry(ph.op, ph.count, ph.local));
    AloneConfined(ph.op, ph.count, base, base);
    assert s.owner[i] == Some(t) <==> Holds(|s.owner|, ph, i);
    assert Partial(base, ph, s.shards);
    assert !InScope(ph.op.scope, i) ==> !RunningAt(s, i);
  }

  lemma CommitContents(init: seq<Shard>, s: State, t: nat)
    requires LockInv(s) && ConfinedAll(s) && Contents(init, s) && Enabled(s, Commit(t))
    ensures Contents(init, Do(s, Commit(t)))
  {
    hide Serial, Alone, Owned, Shape;
    var s' := Do(s, Commit(t));
    forall u | 0 <= u < |s.threads| && u != t && s.threads[u].Running? ensures Partial(Serial(init, s'.log), s'.threads[u], s'.shards) {
      CommitOthers(init, s, t, u);
    }
    forall i | 0 <= i < |s.shards| && !RunningAt(s', i) ensures s'.shards[i] == Serial(init, s'.log)[i] {
      CommitElsewhere(init, s, t, i);
    }
  }

  lemma ResultsKeep(init: seq<Shard>, s: State, t: nat)
    requires Contents(init, s) && SerialResults(init, s.log) && Enabled(s, Commit(t))
    ensures SerialResults(init, Do(s, Commit(t)).log)
  {
    var log := Do(s, Commit(t)).log;
    forall i | 0 <= i < |log|
      ensures Alone(log[i].op, log[i].count, Serial(init, log[..i])).0 == log[i].result && log[i].op.program(log[i].result).Finish?
    {
      assert log[..i] == s.log[..i];
      assert i == |s.log| ==> s.log[..i] == s.log;
    }
  }

  lemma LockStepKeeps(s: State, step: Step)
    requires LockInv(s) && Enabled(s, step)
    ensures LockInv(Do(s, step))
  {
    LocksKeep(s, step);
    OwnedKeeps(s, step);
  }

  lemma StepKeeps(init: seq<Shard>, s: State, step: Step)
    requires Inv(init, s) && Enabled(s, step) && (step.Begin? ==> Confined(step.op))
    ensures Inv(init, Do(s, step))
  {
    LockStepKeeps(s, step);
    hide Contents, LockInv;
    if step.Run? {
      RunContents(init, s, step.t);
    } else if step.Commit? {
      CommitContents(init, s, step.t);
      ResultsKeep(init, s, step.t);
    } else {
      LockStepContents(init, s, step);
    }
  }

  lemma {:induction false} RunLocks(init: seq<Shard>, states: seq<State>, steps: seq<Step>, n: nat)
    requires IsRun(init, states, steps) && n < |states|
    ensures LockInv(states[n])
  {
    if n > 0 {
      RunLocks(init, states, steps, n - 1);
      hide LockInv;
      LockStepKeeps(states[n - 1], steps[n - 1]);
    }
  }

  lemma {:induction false} RunInv(init: seq<Shard>, states: seq<State>, steps: seq<Step>, n: nat)
    requires IsRun(init, states, steps) && ConfinedRun(steps) && n < |states|
    ensures Inv(init, states[n])
  {
    if n > 0 {
      RunInv(init, states, steps, n - 1);
      hide Inv;
      StepKeeps(init, states[n - 1], steps[n - 1]);
    }
  }

  // ---------- the theorems ----------

  /** Serializability: in every run whose operations touch only what they lock, the
      operations finished so far give the results they give when run one at a time in
      the order they finished, and once no operation is running the store holds exactly
      what that serial execution leaves. */
  lemma Serializable(init: seq<Shard>, states: seq<State>, steps: seq<Step>)
    requires IsRun(init, states, steps) && ConfinedRun(steps)
    ensures var s := states[|steps|];
      SerialResults(init, s.log) && (NobodyRunning(s) ==> s.shards == Serial(init, s.log))
  {
    RunInv(init, states, steps, |steps|);
  }

  /** No reachable state is deadlocked, whatever the handlers touch: if any operation is
      under way, some operation under way can take its next step. */
  lemma NoDeadlock(init: seq<Shard>, states: seq<State>, steps: seq<Step>) returns (step: Step)
    requires IsRun(init, states, steps)
    requires exists t :: 0 <= t < |states[|steps|].threads| && !states[|steps|].threads[t].Idle?
    ensures Enabled(states[|steps|], step) && !step.Begin?
  {
    RunLocks(init, states, steps, |steps|);
    step := SomeStep(states[|steps|]);
  }

  lemma SomeStep(s: State) returns (step: Step)
    requires LockInv(s)
    requires exists t :: 0 <= t < |s.threads| && !s.threads[t].Idle?
    ensures Enabled(s, step) && !step.Begin?
  {
    var n := |s.owner|;
    if t :| 0 <= t < |s.threads| && s.threads[t].Running? {
      step := if s.threads[t].op.program(s.threads[t].local).Finish? then Commit(t) else Run(t);
    } else if t :| 0 <= t < |s.threads| && s.threads[t].Unlocking? {
      step := if s.threads[t].next == LockCount(n, s.threads[t].op.scope) then Leave(t) else Unlock(t);
    } else if t :| 0 <= t < |s.threads| && s.threads[t].Locking? && s.threads[t].next > 0 {
      step := FurthestLocker(s, t);
    } else {
      var t :| 0 <= t < |s.threads| && !s.threads[t].Idle?;
      var ph := s.threads[t];
      if ph.next < LockCount(n, ph.op.scope) {
        var i := LockAt(ph.op.scope, ph.next);
        if s.owner[i].Some? {
          assert false;
        }
        step := Lock(t);
      } else {
        step := Enter(t);
      }
    }
  }

  /** With nobody running or unlocking, a thread that has its first lock waits for
      nobody: only one thread can be past lock zero. */
  lemma FurthestLocker(s: State, t: nat) returns (step: Step)
    requires LockInv(s)
    requires t < |s.threads| && s.threads[t].Locking? && s.threads[t].next > 0
    requires forall u :: 0 <= u < |s.threads| ==> s.threads[u].Idle? || s.threads[u].Locking?
    ensures Enabled(s, step) && !step.Begin?
  {
    var n, ph := |s.owner|, s.threads[t];
    if ph.next == LockCount(n, ph.op.scope) {
      step := Enter(t);
    } else {
      var i := ph.next;
      if s.owner[i].Some? {
        var u := s.owner[i].value;
        assert Holds(n, s.threads[u], i);
        assert s.owner[0] == Some(t) <==> Holds(n, ph, 0);
        if s.threads[u].op.scope.All? {
          assert false;
        }
        step := Enter(u);
      } else {
        step := Lock(t);
      }
    }
  }

  // ---------- no update is lost ----------

  function Value(m: Shard, key: Key): (v: nat)
  {
    if key in m && |m[key]| == 1 then m[key][0] else 0
  }

  /** A read-modify-write in two accesses: read the counter, then write it plus one. */
  function Increment(shard: nat, key: Key): (op: Op)
  {
    Op(One(shard),
       (l: Local) =>
         if |l| == 0 then Touch(shard, (l: Local, m: Shard) => ([[Value(m, key)]], m))
         else if |l| == 1 && |l[0]| == 1 then
           Touch(shard, (l: Local, m: Shard) => (l + [[]], if |l| == 1 && |l[0]| == 1 then m[key := [l[0][0] + 1]] else m))
         else Finish,
       [])
  }

  lemma {:induction false} IncrementAlone(shard: nat, key: Key, n: nat, shards: seq<Shard>)
    requires shard < |shards|
    ensures var (l, after) := Alone(Increment(shard, key), n, shards);
      && (n == 0 ==> l == [])
      && (n == 1 ==> l == [[Value(shards[shard], key)]])
      && (n <= 1 ==> after == shards)
      && (n >= 2 ==> |l| == 2 && Value(after[shard], key) == Value(shards[shard], key) + 1)
  {
    if n > 0 {
      IncrementAlone(shard, key, n - 1, shards);
      assert shards[shard := shards[shard]] == shards;
    }
  }

  lemma {:induction false} IncrementsAddUp(init: seq<Shard>, log: seq<Entry>, shard: nat, key: Key)
    requires shard < |init| && SerialResults(init, log)
    requires forall i :: 0 <= i < |log| ==> log[i].op == Increment(shard, key)
    ensures Value(Serial(init, log)[shard], key) == Value(init[shard], key) + |log|
  {
    if log != [] {
      var before, e := log[..|log| - 1], log[|log| - 1];
      forall i | 0 <= i < |before| ensures before[..i] == log[..i] {}
      IncrementsAddUp(init, before, shard, key);
      IncrementAlone(shard, key, e.count, Serial(init, before));
    }
  }

  /** However increments of one counter interleave, each of them counts. */
  lemma NoLostIncrement(init: seq<Shard>, states: seq<State>, steps: seq<Step>, shard: nat, key: Key)
    requires IsRun(init, states, steps) && ConfinedRun(steps) && shard < |init|
    requires var s := states[|steps|];
      && NobodyRunning(s)
      && forall i :: 0 <= i < |s.log| ==> s.log[i].op == Increment(shard, key)
    ensures var s := states[|steps|];
      shard < |s.shards| && Value(s.shards[shard], key) == Value(init[shard], key) + |s.log|
  {
    Serializable(init, states, steps);
    IncrementsAddUp(init, states[|steps|].log, shard, key);
  }
}
