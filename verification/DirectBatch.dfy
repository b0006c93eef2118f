/** `put_batch` on a direct store: it locks the shard of its first key and writes all of
    its keys.  This module says exactly which batches are safe. */
module DirectBatch {
  import opened Store
  import opened DirectLocks
  import opened DirectLockProofs

  type ShardOf = Key -> nat

  datatype Put = Put(key: Key, val: Bytes)

  function PutOne(e: Put): (body: (Local, Shard) -> (Local, Shard))
  {
    (l: Local, m: Shard) => (l + [[]], m[e.key := e.val])
  }

  /** One access per entry, in order. */
  function PutBatch(shardOf: ShardOf, entries: seq<Put>): (op: Op)
    requires entries != []
  {
    Op(One(shardOf(entries[0].key)),
       (l: Local) => if |l| < |entries| then Touch(shardOf(entries[|l|].key), PutOne(entries[|l|])) else Finish,
       [])
  }

  predicate OneShard(shardOf: ShardOf, entries: seq<Put>)
    requires entries != []
  {
    forall i :: 0 <= i < |entries| ==> shardOf(entries[i].key) == shardOf(entries[0].key)
  }

  lemma PutBatchConfinedIff(shardOf: ShardOf, entries: seq<Put>)
    requires entries != []
    ensures Confined(PutBatch(shardOf, entries)) <==> OneShard(shardOf, entries)
  {
    var op := PutBatch(shardOf, entries);
    if !OneShard(shardOf, entries) {
      var i :| 0 <= i < |entries| && shardOf(entries[i].key) != shardOf(entries[0].key);
      var l: Local := seq(i, _ => []);
      assert op.program(l).Touch? && !InScope(op.scope, op.program(l).shard);
    }
  }

  lemma IncrementConfined(shard: nat, key: Key)
    ensures Confined(Increment(shard, key))
  {
  }

  // ---------- runs of a batch and increments ----------

  ghost predicate BatchOrIncrement(shardOf: ShardOf, entries: seq<Put>, op: Op)
    requires entries != []
  {
    op == PutBatch(shardOf, entries) || exists k :: op == Increment(shardOf(k), k)
  }

  ghost predicate OnlyThese(shardOf: ShardOf, entries: seq<Put>, steps: seq<Step>)
    requires entries != []
  {
    forall i :: 0 <= i < |steps| && steps[i].Begin? ==> BatchOrIncrement(shardOf, entries, steps[i].op)
  }

  /** Some run of this batch and of increments, any number of each, ends in `s`. */
  ghost predicate Reach(shardOf: ShardOf, entries: seq<Put>, init: seq<Shard>, s: State)
    requires entries != []
  {
    exists states, steps :: IsRun(init, states, steps) && OnlyThese(shardOf, entries, steps) && states[|steps|] == s
  }

  lemma ReachStep(shardOf: ShardOf, entries: seq<Put>, init: seq<Shard>, s: State, step: Step, s': State)
    requires entries != [] && Reach(shardOf, entries, init, s) && Enabled(s, step) && s' == Do(s, step)
    requires step.Begin? ==> BatchOrIncrement(shardOf, entries, step.op)
    ensures Reach(shardOf, entries, init, s')
  {
    hide Init, Enabled, Do, BatchOrIncrement;
    var states: seq<State>, steps: seq<Step> :| IsRun(init, states, steps) && OnlyThese(shardOf, entries, steps) && states[|steps|] == s;
    var states', steps' := states + [s'], steps + [step];
    forall i | 0 <= i < |steps'| ensures Enabled(states'[i], steps'[i]) && states'[i + 1] == Do(states'[i], steps'[i]) {
      if i < |steps| { assert states'[i + 1] == states[i + 1]; }
    }
    assert IsRun(init, states', steps') && OnlyThese(shardOf, entries, steps') && states'[|steps'|] == s';
  }

  // ---------- a batch by itself ----------

  /** What a batch leaves under its keys does not depend on what was there. */
  lemma {:induction false} BatchOverwrites(shardOf: ShardOf, entries: seq<Put>, i: nat, a: seq<Shard>, b: seq<Shard>)
    requires entries != [] && i <= |entries| && |a| == |b| && forall k :: shardOf(k) < |a|
    ensures var op := PutBatch(shardOf, entries);
      && |Alone(op, i, a).0| == i && |Alone(op, i, b).0| == i
      && forall j :: 0 <= j < i ==>
           var k := entries[j].key;
           Value(Alone(op, i, a).1[shardOf(k)], k) == Value(Alone(op, i, b).1[shardOf(k)], k)
  {
    if i > 0 {
      BatchOverwrites(shardOf, entries, i - 1, a, b);
      var op := PutBatch(shardOf, entries);
      var e := entries[i - 1];
      forall j | 0 <= j < i
        ensures var k := entries[j].key; Value(Alone(op, i, a).1[shardOf(k)], k) == Value(Alone(op, i, b).1[shardOf(k)], k)
      {
        BatchStep(shardOf, entries, i, a, entries[j].key);
        BatchStep(shardOf, entries, i, b, entries[j].key);
      }
    }
  }

  lemma BatchStep(shardOf: ShardOf, entries: seq<Put>, i: nat, a: seq<Shard>, k: Key)
    requires entries != [] && 0 < i <= |entries| && (forall k :: shardOf(k) < |a|)
    requires |Alone(PutBatch(shardOf, entries), i - 1, a).0| == i - 1
    ensures var op := PutBatch(shardOf, entries);
      && |Alone(op, i, a).0| == i
      && Value(Alone(op, i, a).1[shardOf(k)], k) ==
         if entries[i - 1].key == k then Value(map[k := entries[i - 1].val], k) else Value(Alone(op, i - 1, a).1[shardOf(k)], k)
  {
    var op, e := PutBatch(shardOf, entries), entries[i - 1];
    var (l, mid) := Alone(op, i - 1, a);
    assert op.program(l) == Touch(shardOf(e.key), PutOne(e));
    assert Access(op, l, mid).0 == l + [[]];
    assert Access(op, l, mid).1[shardOf(e.key)] == mid[shardOf(e.key)][e.key := e.val];
  }

  // ---------- the failing run ----------

  /** The batch runs from its start to its end under the first key's lock. */
  lemma {:induction false} RunBatch(shardOf: ShardOf, entries: seq<Put>, init: seq<Shard>, s: State, i: nat)
    requires entries != [] && (forall k :: shardOf(k) < |init|) && i <= |entries| && |s.threads| == 2
    requires var op := PutBatch(shardOf, entries);
      s.threads[1] == Running(op, [], 0) && s.shards == init && Reach(shardOf, entries, init, s)
    ensures var op := PutBatch(shardOf, entries);
      var (l, shards) := Alone(op, i, init);
      |l| == i && Reach(shardOf, entries, init, s.(shards := shards, threads := s.threads[1 := Running(op, l, i)]))
  {
    hide Reach;
    var op := PutBatch(shardOf, entries);
    BatchOverwrites(shardOf, entries, i, init, init);
    if i == 0 {
      assert s == s.(shards := init, threads := s.threads[1 := Running(op, [], 0)]);
    } else {
      RunBatch(shardOf, entries, init, s, i - 1);
      var (l0, shards0) := Alone(op, i - 1, init);
      var (l, shards) := Alone(op, i, init);
      var mid := s.(shards := shards0, threads := s.threads[1 := Running(op, l0, i - 1)]);
      var s' := s.(shards := shards, threads := s.threads[1 := Running(op, l, i)]);
      assert s'.threads == mid.threads[1 := Running(op, l, i)];
      ReachStep(shardOf, entries, init, mid, Run(1), s');
    }
  }

  function Unlocked(n: nat): (owner: seq<Option<nat>>) { seq(n, _ => None) }

  /** The increment has read the counter when the batch begins. */
  lemma IncrementReads(shardOf: ShardOf, entries: seq<Put>, init: seq<Shard>, k: Key)
    requires entries != [] && (forall k :: shardOf(k) < |init|)
    ensures Reach(shardOf, entries, init,
                  State(init, Unlocked(|init|)[shardOf(k) := Some(0)],
                        [Running(Increment(shardOf(k), k), [[Value(init[shardOf(k)], k)]], 1), Idle], []))
  {
    var b, op, owner := shardOf(k), Increment(shardOf(k), k), Unlocked(|init|)[shardOf(k) := Some(0)];
    IncrementLocks(shardOf, entries, init, k);
    IncrementScope(b, k);
    FirstRead(b, k, init);
    hide Reach, Increment, BatchOrIncrement, Unlocked, Access;
    var s2 := State(init, owner, [Locking(op, 1), Idle], []);
    var s3 := State(init, owner, [Running(op, [], 0), Idle], []);
    ReachStep(shardOf, entries, init, s2, Enter(0), s3);
    ReachStep(shardOf, entries, init, s3, Run(0), State(init, owner, [Running(op, [[Value(init[b], k)]], 1), Idle], []));
  }

  lemma IncrementLocks(shardOf: ShardOf, entries: seq<Put>, init: seq<Shard>, k: Key)
    requires entries != [] && (forall k :: shardOf(k) < |init|)
    ensures Reach(shardOf, entries, init,
                  State(init, Unlocked(|init|)[shardOf(k) := Some(0)], [Locking(Increment(shardOf(k), k), 1), Idle], []))
  {
    var b, op, none := shardOf(k), Increment(shardOf(k), k), Unlocked(|init|);
    StartReach(shardOf, entries, init);
    IncrementScope(b, k);
    assert BatchOrIncrement(shardOf, entries, op);
    hide Reach, Increment, BatchOrIncrement, Access;
    var s1 := State(init, none, [Locking(op, 0), Idle], []);
    ReachStep(shardOf, entries, init, State(init, none, [Idle, Idle], []), Begin(0, op), s1);
    ReachStep(shardOf, entries, init, s1, Lock(0), State(init, none[b := Some(0)], [Locking(op, 1), Idle], []));
  }

  lemma StartReach(shardOf: ShardOf, entries: seq<Put>, init: seq<Shard>)
    requires entries != []
    ensures Reach(shardOf, entries, init, State(init, Unlocked(|init|), [Idle, Idle], []))
  {
    var s0 := State(init, Unlocked(|init|), [Idle, Idle], []);
    var none: seq<Step> := [];
    assert IsRun(init, [s0], none) && OnlyThese(shardOf, entries, none) && [s0][|none|] == s0;
  }

  lemma IncrementScope(shard: nat, key: Key)
    ensures Increment(shard, key).scope == One(shard) && Increment(shard, key).start == []
  {
  }

  lemma FirstRead(shard: nat, key: Key, shards: seq<Shard>)
    requires shard < |shards|
    ensures Increment(shard, key).program([]).Touch?
    ensures Access(Increment(shard, key), [], shards) == ([[Value(shards[shard], key)]], shards)
  {
    assert shards[shard := shards[shard]] == shards;
  }

  /** The batch takes the first key's lock and writes the counter under it. */
  lemma BatchOvertakes(shardOf: ShardOf, entries: seq<Put>, init: seq<Shard>, k: Key, reading: Phase)
    returns (s: State)
    requires entries != [] && (forall k :: shardOf(k) < |init|) && shardOf(entries[0].key) != shardOf(k)
    requires Reach(shardOf, entries, init, State(init, Unlocked(|init|)[shardOf(k) := Some(0)], [reading, Idle], []))
    ensures Reach(shardOf, entries, init, s) && |s.threads| == 2 && s.threads[0] == reading && s.threads[1].Unlocking?
    ensures var op := PutBatch(shardOf, entries);
      var (l, shards) := Alone(op, |entries|, init);
      s.shards == shards && s.log == [Entry(op, |entries|, l)] && |s.owner| == |init|
  {
    hide Reach;
    var op, m := PutBatch(shardOf, entries), |entries|;
    var o0 := Unlocked(|init|)[shardOf(k) := Some(0)];
    var o1 := o0[shardOf(entries[0].key) := Some(1)];
    ReachStep(shardOf, entries, init, State(init, o0, [reading, Idle], []), Begin(1, op), State(init, o0, [reading, Locking(op, 0)], []));
    ReachStep(shardOf, entries, init, State(init, o0, [reading, Locking(op, 0)], []), Lock(1), State(init, o1, [reading, Locking(op, 1)], []));
    var s0 := State(init, o1, [reading, Running(op, [], 0)], []);
    ReachStep(shardOf, entries, init, State(init, o1, [reading, Locking(op, 1)], []), Enter(1), s0);
    RunBatch(shardOf, entries, init, s0, m);
    var (l, shards) := Alone(op, m, init);
    var s1 := s0.(shards := shards, threads := s0.threads[1 := Running(op, l, m)]);
    s := State(shards, o1, [reading, Unlocking(op, 0)], [Entry(op, m, l)]);
    assert s1.log + [Entry(op, m, l)] == s.log;
    ReachStep(shardOf, entries, init, s1, Commit(1), s);
  }

  /** The increment writes what it had read, plus one. */
  lemma IncrementWrites(shardOf: ShardOf, entries: seq<Put>, init: seq<Shard>, k: Key, c: nat, s: State)
    returns (s': State)
    requires entries != [] && (forall k :: shardOf(k) < |init|) && |s.shards| == |init|
    requires Reach(shardOf, entries, init, s) && |s.threads| == 2 && s.threads[1].Unlocking? && |s.log| == 1
    requires s.threads[0] == Running(Increment(shardOf(k), k), [[c]], 1)
    ensures Reach(shardOf, entries, init, s') && NobodyRunning(s') && |s'.shards| == |init|
    ensures s'.log == [s.log[0], Entry(Increment(shardOf(k), k), 2, [[c], []])]
    ensures Value(s'.shards[shardOf(k)], k) == c + 1
  {
    hide Reach;
    var b, op := shardOf(k), Increment(shardOf(k), k);
    var l: Local := [[c], []];
    assert [[c]] + [[]] == l;
    var s1 := s.(shards := s.shards[b := s.shards[b][k := [c + 1]]], threads := s.threads[0 := Running(op, l, 2)]);
    ReachStep(shardOf, entries, init, s, Run(0), s1);
    s' := s1.(log := s.log + [Entry(op, 2, l)], threads := s1.threads[0 := Unlocking(op, 0)]);
    ReachStep(shardOf, entries, init, s1, Commit(0), s');
  }

  /** Neither order of the two gives what the run left. */
  lemma {:induction false} NeitherOrder(shardOf: ShardOf, entries: seq<Put>, init: seq<Shard>, k: Key, v: nat, s: State)
    requires entries != [] && (forall k :: shardOf(k) < |init|) && |s.shards| == |init|
    requires exists j :: 0 <= j < |entries| && entries[j].key == k
    requires Value(init[shardOf(k)], k) == v + 1
    requires Value(Alone(PutBatch(shardOf, entries), |entries|, init).1[shardOf(k)], k) == v
    requires |s.log| == 2 && s.log[1] == Entry(Increment(shardOf(k), k), 2, [[v + 1], []])
    requires s.log[0].op == PutBatch(shardOf, entries) && s.log[0].count == |entries|
    requires Value(s.shards[shardOf(k)], k) == v + 2
    ensures !Explained(init, s)
  {
    if log: seq<Entry> :| multiset(log) == multiset(s.log) && SerialResults(init, log) && Serial(init, log) == s.shards {
      TwoOrders(log, s.log);
      SerialTwo(init, log);
      if log == s.log {
        BatchFirst(shardOf, entries, init, k, v, log);
      } else {
        BatchLast(shardOf, entries, init, k, v, log);
      }
      assert false;
    }
  }

  lemma SerialTwo(init: seq<Shard>, log: seq<Entry>)
    requires |log| == 2
    ensures Serial(init, log[..1]) == Alone(log[0].op, log[0].count, init).1
    ensures Serial(init, log) == Alone(log[1].op, log[1].count, Serial(init, log[..1])).1
  {
    assert log[..1][..0] == [];
    assert log[..|log| - 1] == log[..1];
  }

  lemma {:induction false} BatchLast(shardOf: ShardOf, entries: seq<Put>, init: seq<Shard>, k: Key, v: nat, log: seq<Entry>)
    requires entries != [] && (forall k :: shardOf(k) < |init|) && |log| == 2
    requires exists j :: 0 <= j < |entries| && entries[j].key == k
    requires Value(Alone(PutBatch(shardOf, entries), |entries|, init).1[shardOf(k)], k) == v
    requires log[1].op == PutBatch(shardOf, entries) && log[1].count == |entries|
    ensures Value(Serial(init, log)[shardOf(k)], k) == v
  {
    SerialTwo(init, log);
    var j :| 0 <= j < |entries| && entries[j].key == k;
    BatchOverwrites(shardOf, entries, |entries|, init, Serial(init, log[..1]));
  }

  lemma {:induction false} BatchFirst(shardOf: ShardOf, entries: seq<Put>, init: seq<Shard>, k: Key, v: nat, log: seq<Entry>)
    requires entries != [] && (forall k :: shardOf(k) < |init|) && |log| == 2 && SerialResults(init, log)
    requires log[0].op == PutBatch(shardOf, entries) && log[0].count == |entries|
    requires Value(Alone(PutBatch(shardOf, entries), |entries|, init).1[shardOf(k)], k) == v
    requires Serial(init, log[..1]) == Alone(log[0].op, log[0].count, init).1
    requires log[1].op == Increment(shardOf(k), k)
    ensures log[1] != Entry(Increment(shardOf(k), k), 2, [[v + 1], []])
  {
    var mid := Serial(init, log[..1]);
    IncrementAlone(shardOf(k), k, 1, mid);
    if log[1].count == 2 {
      assert Alone(log[1].op, 1, mid).0 == [[v]];
      assert Alone(log[1].op, 2, mid).0[0] == [v];
      assert Alone(log[1].op, log[1].count, mid).0 == log[1].result;
    }
  }

  lemma TwoOrders(log: seq<Entry>, two: seq<Entry>)
    requires multiset(log) == multiset(two) && |two| == 2
    ensures |log| == 2 && (log == two || log == [two[1], two[0]])
  {
    assert |log| == |multiset(log)|;
    assert two == [two[0], two[1]] && log == [log[0], log[1]];
    assert log[0] in multiset(two) && log[1] in multiset(two);
    assert two[0] in multiset(log) && two[1] in multiset(log);
  }

  lemma UnsafeBatch(shardOf: ShardOf, n: nat, entries: seq<Put>) returns (init: seq<Shard>, s: State)
    requires entries != [] && (forall k :: shardOf(k) < n) && !OneShard(shardOf, entries)
    ensures |init| == n && Reach(shardOf, entries, init, s) && NobodyRunning(s) && !Explained(init, s)
  {
    hide Reach, Explained;
    var j :| 0 <= j < |entries| && shardOf(entries[j].key) != shardOf(entries[0].key);
    var k, op, m := entries[j].key, PutBatch(shardOf, entries), |entries|;
    var empty: seq<Shard> := seq(n, _ => map[]);
    var v := Value(Alone(op, m, empty).1[shardOf(k)], k);
    init := empty[shardOf(k) := map[k := [v + 1]]];
    BatchOverwrites(shardOf, entries, m, empty, init);
    IncrementReads(shardOf, entries, init, k);
    s := BatchOvertakes(shardOf, entries, init, k, Running(Increment(shardOf(k), k), [[v + 1]], 1));
    s := IncrementWrites(shardOf, entries, init, k, v + 1, s);
    NeitherOrder(shardOf, entries, init, k, v, s);
  }

  /** A batch is safe exactly if all its keys share the first key's shard: then every
      run of it with increments is as good as some serial order, and otherwise some run
      is not. */
  lemma PutBatchSafeIff(shardOf: ShardOf, n: nat, entries: seq<Put>)
    requires entries != [] && forall k :: shardOf(k) < n
    ensures OneShard(shardOf, entries) <==>
            forall init, s :: |init| == n && Reach(shardOf, entries, init, s) && NobodyRunning(s) ==> Explained(init, s)
  {
    if OneShard(shardOf, entries) {
      forall init, s | |init| == n && Reach(shardOf, entries, init, s) && NobodyRunning(s) ensures Explained(init, s) {
        SafeBatch(shardOf, entries, init, s);
      }
    } else {
      var init, s := UnsafeBatch(shardOf, n, entries);
      assert Reach(shardOf, entries, init, s);
    }
  }

  lemma SafeBatch(shardOf: ShardOf, entries: seq<Put>, init: seq<Shard>, s: State)
    requires entries != [] && OneShard(shardOf, entries) && Reach(shardOf, entries, init, s) && NobodyRunning(s)
    ensures Explained(init, s)
  {
    var states: seq<State>, steps: seq<Step> :| IsRun(init, states, steps) && OnlyThese(shardOf, entries, steps) && states[|steps|] == s;
    forall i | 0 <= i < |steps| && steps[i].Begin? ensures Confined(steps[i].op) {
      assert BatchOrIncrement(shardOf, entries, steps[i].op);
      if steps[i].op == PutBatch(shardOf, entries) {
        PutBatchConfinedIff(shardOf, entries);
      } else {
        var k :| steps[i].op == Increment(shardOf(k), k);
        IncrementConfined(shardOf(k), k);
      }
    }
    Serializable(init, states, steps);
  }
}
