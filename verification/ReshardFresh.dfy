/** A fresh reshard reuses the number of an aborted generation without waiting for the
    writes that still address it.  This module says exactly when that is safe. */
module ReshardFresh {
  import opened Store
  import opened ReshardMachine
  import opened ReshardInvariant
  import opened ReshardClients
  import opened ReshardTheorems
  import opened ReshardRecovery

  /** `ph` is one of the partitions of `t`. */
  predicate Within(t: Route, ph: Phys) { ph.gen == t.gen && ph.p < t.P }

  /** A write in flight whose second leg, still to come, addresses a partition of `t`. */
  predicate Pending(s: State, x: Id, t: Route)
  {
    && x in s.writers && !WriteDone(s.writers[x])
    && s.writers[x].target.Some? && Within(t, s.writers[x].target.value)
  }

  /** An entry node `n` routes by, now or before it has caught up, sends `x` to `t`. */
  predicate Sends(route: Router, s: State, n: Node, k: nat, x: Id, t: Route)
  {
    n in s.at && s.at[n] <= k < |s.log| && s.log[k].rs.Some? && Within(t, Home(route, s.log[k].rs.value.to, x))
  }

  /** Nothing in flight, and no entry a node may still route by, addresses `t`. */
  ghost predicate Clear(route: Router, s: State, t: Route)
  {
    && (forall x :: !Pending(s, x, t))
    && (forall n, k: nat, x :: !Sends(route, s, n, k, x, t))
  }

  /** The catalog does not know of `t` yet. */
  predicate Early(s: State, t: Route)
    requires s.log != []
  {
    Durable(s).rs.None? && Durable(s).cur.gen < t.gen
  }

  /** A second leg lands in `t` too early, or in a partition of `t` that does not own
      its id. */
  predicate LandsForeign(route: Router, s: State, a: Step, t: Route)
  {
    && s.log != [] && a.TargetLeg? && a.x in s.writers && s.writers[a.x].target.Some?
    && var ph := s.writers[a.x].target.value;
       ph in s.parts && Within(t, ph) && (Early(s, t) || ph != Home(route, t, a.x))
  }

  // ---------- safe if clear ----------

  /** Where a fresh reshard to `t` may be, and what the catalog then says. */
  predicate FreshPc(d: Catalog, pc: Pc, t: Route)
  {
    match pc
    case DropNew(goal, _) => goal == t.P && d.rs.None? && d.cur.gen + 1 == t.gen
    case CreateNew(goal, _, resume) => goal == t.P && !resume && d.rs.None? && d.cur.gen + 1 == t.gen
    case SetState(goal) => goal == t.P && d.rs.None? && d.cur.gen + 1 == t.gen
    case Grace(_) => PreCutover(d) && d.rs.value.to == t && d.cur.gen + 1 == t.gen
    case Scan(_, _, _) => PreCutover(d) && d.rs.value.to == t && d.cur.gen + 1 == t.gen
    case Copy(_, _, _, _, _, _) => PreCutover(d) && d.rs.value.to == t && d.cur.gen + 1 == t.gen
    case Flip(_) => PreCutover(d) && d.rs.value.to == t && d.cur.gen + 1 == t.gen
    case Gate(_) => PostCutover(d) && d.rs.value.to == t
    case DropOld(_, _, _) => d.rs.None? && d.cur == t
    case Idle => d.rs.None? && d.cur == t
    case _ => false
  }

  /** Only what the reshard to `t` itself asked for is addressed to `t`. */
  predicate Asked(route: Router, s: State, ph: Phys, x: Id, t: Route)
    requires s.log != []
  {
    Within(t, ph) ==> !Early(s, t) && ph == Home(route, t, x)
  }

  ghost predicate Tame(route: Router, s: State, t: Route)
    requires s.log != []
  {
    && FreshPc(Durable(s), s.pc, t)
    && (forall x :: Pending(s, x, t) ==> Asked(route, s, s.writers[x].target.value, x, t))
    && (forall n, k: nat, x :: Sends(route, s, n, k, x, t) ==> Asked(route, s, Home(route, s.log[k].rs.value.to, x), x, t))
  }

  lemma ClientTame(route: Router, s: State, a: Step, t: Route)
    requires Shape(route, s) && Tame(route, s, t) && Enabled(route, s, a) && IsOther(a)
    ensures Do(route, s, a).log == s.log && Tame(route, Do(route, s, a), t)
  {
    OthersKeepRank(route, s, a);
    var s' := Do(route, s, a);
    forall n, k: nat, x | Sends(route, s', n, k, x, t) ensures Sends(route, s, n, k, x, t) {
      OtherAt(route, s, a, n);
    }
    forall x | Pending(s', x, t) ensures Asked(route, s, s'.writers[x].target.value, x, t) {
      PendingStep(route, s, a, t, x);
    }
  }

  lemma OtherAt(route: Router, s: State, a: Step, n: Node)
    requires Enabled(route, s, a) && IsOther(a)
    ensures n in Do(route, s, a).at <==> n in s.at
    ensures n in s.at ==> s.at[n] <= Do(route, s, a).at[n]
  {
    hide Completed, Landed;
  }

  lemma PendingStep(route: Router, s: State, a: Step, t: Route, x: Id)
    requires Shape(route, s) && Tame(route, s, t) && Enabled(route, s, a) && IsOther(a)
    requires Pending(Do(route, s, a), x, t)
    ensures Asked(route, s, Do(route, s, a).writers[x].target.value, x, t)
  {
    hide Completed, Landed, GoodPc, LogOk, Monotone, DualTargets;
    if a.StartWrite? && a.x == x {
      AttemptAsked(route, s, a.n, x, a.op, false, t);
    } else if a.Retry? && a.x == x {
      AttemptAsked(route, s, a.n, x, s.writers[x].op, s.writers[x].landed, t);
    } else {
      assert Pending(s, x, t);
    }
  }

  lemma AttemptAsked(route: Router, s: State, n: Node, x: Id, op: Op, landed: bool, t: Route)
    requires Shape(route, s) && Tame(route, s, t) && Routable(s, n)
    ensures var w := Attempt(route, View(s, n), x, op, landed);
            w.target.Some? ==> Asked(route, s, w.target.value, x, t)
  {
    hide GoodPc, Monotone;
    var c := View(s, n);
    TargetsOfEntry(route, c, x);
    if c.rs.Some? {
      var k := s.at[n];
      if PreCutover(c) {
        assert Sends(route, s, n, k, x, t) <==> Within(t, Home(route, c.rs.value.to, x));
      } else {
        assert c.rs.value.from.gen < c.cur.gen <= Durable(s).cur.gen <= t.gen;
      }
    }
  }

  lemma CoordTame(route: Router, s: State, recs: seq<(Id, Record)>, t: Route)
    requires Shape(route, s) && Tame(route, s, t) && CoordEnabled(route, s, recs)
    ensures CoordStep(route, s, recs).log != [] && Tame(route, CoordStep(route, s, recs), t)
  {
    hide CoordParts, CoordHistory, LogOk, Monotone;
    var s' := CoordStep(route, s, recs);
    assert FreshPc(Durable(s'), s'.pc, t);
    assert Early(s', t) ==> Early(s, t);
    forall x | Pending(s', x, t) ensures Asked(route, s', s'.writers[x].target.value, x, t) {
      assert Pending(s, x, t);
    }
    forall n, k: nat, x | Sends(route, s', n, k, x, t) ensures Asked(route, s', Home(route, s'.log[k].rs.value.to, x), x, t) {
      if k < |s.log| { assert Sends(route, s, n, k, x, t); }
    }
  }

  // ---------- the new generation starts empty ----------

  /** What a fresh reshard has created so far holds nothing. */
  predicate EmptySoFar(parts: Partitions, gen: nat, pc: Pc)
  {
    pc.CreateNew? || pc.SetState? ==>
      forall q :: 0 <= q < (if pc.CreateNew? then pc.p else pc.goal) ==> Phys(gen, q) in parts && parts[Phys(gen, q)] == map[]
  }

  /** A point write elsewhere leaves it so. */
  lemma WriteEmpty(parts: Partitions, t: Route, pc: Pc, ph: Phys, x: Id, v: Option<Record>)
    requires EmptySoFar(parts, t.gen, pc) && ph in parts
    requires (pc.CreateNew? ==> pc.p <= t.P) && (pc.SetState? ==> pc.goal == t.P)
    requires pc.CreateNew? || pc.SetState? ==> !Within(t, ph)
    ensures EmptySoFar(Write(parts, ph, x, v), t.gen, pc)
  {
  }

  lemma ClientEmpty(route: Router, s: State, a: Step, t: Route)
    requires Inv(route, s) && Tame(route, s, t) && Enabled(route, s, a) && IsOther(a) && EmptySoFar(s.parts, t.gen, s.pc)
    ensures EmptySoFar(Do(route, s, a).parts, t.gen, Do(route, s, a).pc)
  {
    OthersKeepRank(route, s, a);
    if a.LiveLeg? {
      var w := s.writers[a.x];
      WriterProper(route, s, a.x, w);
      hide Inv, EmptySoFar, Completed;
      WriteEmpty(s.parts, t, s.pc, w.live, a.x, Effect(w.op));
    } else if a.TargetLeg? {
      var w := s.writers[a.x];
      assert Within(t, w.target.value) ==> Pending(s, a.x, t);
      hide Inv, EmptySoFar, Completed, Landed;
      if w.target.value in s.parts {
        WriteEmpty(s.parts, t, s.pc, w.target.value, a.x, Effect(w.op));
      }
    }
  }

  lemma CoordEmpty(route: Router, s: State, recs: seq<(Id, Record)>, t: Route)
    requires Shape(route, s) && Tame(route, s, t) && CoordEnabled(route, s, recs) && EmptySoFar(s.parts, t.gen, s.pc)
    ensures EmptySoFar(CoordStep(route, s, recs).parts, t.gen, CoordStep(route, s, recs).pc)
  {
    hide CoordHistory, CoordLog, LogOk, Monotone, CopyParts;
  }

  // ---------- whole runs ----------

  /** A reshard to `t` begun where nothing is being resharded. */
  predicate Fresh(s: State, t: Route)
  {
    s.log != [] && s.pc.Idle? && Durable(s).rs.None? && t.P != Durable(s).cur.P && t.gen == Durable(s).cur.gen + 1 && 1 < t.P <= MAX_PARTITIONS
  }

  lemma BeginTame(route: Router, s: State, t: Route)
    requires Fresh(s, t) && Clear(route, s, t)
    ensures var s' := s.(pc := StartReshard(Durable(s), t.P)); Tame(route, s', t) && EmptySoFar(s'.parts, t.gen, s'.pc)
  {
    var s' := s.(pc := StartReshard(Durable(s), t.P));
    forall x ensures !Pending(s', x, t) {
      assert !Pending(s, x, t);
    }
    forall n, k: nat, x ensures !Sends(route, s', n, k, x, t) {
      assert !Sends(route, s, n, k, x, t);
    }
  }

  lemma {:induction false} RunTame(route: Router, run: seq<State>, steps: seq<Step>, t: Route, i: nat)
    requires ReshardRun(route, run, steps, t.P) && Fresh(run[0], t) && Clear(route, run[0], t) && 1 <= i <= |steps|
    ensures run[i].log != [] && Tame(route, run[i], t) && EmptySoFar(run[i].parts, t.gen, run[i].pc)
  {
    hide Reachable, Shape, LocalInv, Enabled, Do, CoordEnabled, CoordStep, Tame, Clear, EmptySoFar;
    if i == 1 {
      BeginTame(route, run[0], t);
      BeginDo(route, run[0], t.P);
    } else {
      RunTame(route, run, steps, t, i - 1);
      RunToward(route, run, steps, t.P, i - 1);
      var s, a := run[i - 1], steps[i - 1];
      if a.Coord? {
        CoordEnabledBy(route, s, a);
        CoordTame(route, s, a.recs, t);
        CoordEmpty(route, s, a.recs, t);
      } else {
        ReachableInv(route, s);
        ClientTame(route, s, a, t);
        ClientEmpty(route, s, a, t);
      }
    }
  }

  lemma TameLands(route: Router, s: State, a: Step, t: Route)
    requires s.log != [] && Tame(route, s, t) && Enabled(route, s, a)
    ensures !LandsForeign(route, s, a, t)
  {
    if LandsForeign(route, s, a, t) {
      assert Pending(s, a.x, t);
    }
  }

  /** From a clear state the new generation is empty when dual writes are turned on. */
  lemma ClearStartsEmpty(route: Router, run: seq<State>, steps: seq<Step>, t: Route, i: nat, p: nat)
    requires ReshardRun(route, run, steps, t.P) && Fresh(run[0], t) && Clear(route, run[0], t) && 1 <= i <= |steps|
    requires run[i].pc.SetState? && p < t.P
    ensures Phys(t.gen, p) in run[i].parts && run[i].parts[Phys(t.gen, p)] == map[]
  {
    hide ReshardRun, Clear;
    RunTame(route, run, steps, t, i);
  }

  // ---------- unsafe if not ----------

  lemma Extend(route: Router, run: seq<State>, steps: seq<Step>, goal: nat, a: Step) returns (run': seq<State>, steps': seq<Step>)
    requires ReshardRun(route, run, steps, goal) && Enabled(route, run[|steps|], a) && (IsOther(a) || a.Coord?)
    ensures steps' == steps + [a] && run' == run + [Do(route, run[|steps|], a)]
    ensures ReshardRun(route, run', steps', goal)
  {
    hide Reachable, Enabled, Do;
    steps', run' := steps + [a], run + [Do(route, run[|steps|], a)];
    forall i | 0 <= i < |steps'|
      ensures Enabled(route, run'[i], steps'[i]) && run'[i + 1] == Do(route, run'[i], steps'[i])
    {
      if i < |steps| { assert Enabled(route, run[i], steps[i]) && run'[i + 1] == run[i + 1]; }
    }
  }

  /** The coordinator goes on, undisturbed, until it is about to turn on dual writes. */
  lemma {:induction false} ToSetState(route: Router, run: seq<State>, steps: seq<Step>, goal: nat)
    returns (run': seq<State>, steps': seq<Step>)
    requires ReshardRun(route, run, steps, goal)
    requires var s := run[|steps|]; s.log != [] && (s.pc.DropNew? || (s.pc.CreateNew? && !s.pc.resume) || s.pc.SetState?)
    ensures ReshardRun(route, run', steps', goal) && |steps| <= |steps'| && run'[0] == run[0]
    ensures var s, s' := run[|steps|], run'[|steps'|];
            s'.pc.SetState? && s'.log == s.log && s'.at == s.at && s'.writers == s.writers
    decreases RankOf(Durable(run[|steps|]), run[|steps|].pc).stage, RankOf(Durable(run[|steps|]), run[|steps|].pc).a
  {
    EndShape(route, run, steps, goal);
    hide ReshardRun, Enabled, Do;
    var s := run[|steps|];
    if s.pc.SetState? {
      run', steps' := run, steps;
    } else {
      CreateStep(route, s);
      var run1, steps1 := Extend(route, run, steps, goal, Coord([]));
      run', steps' := ToSetState(route, run1, steps1, goal);
    }
  }

  lemma EndShape(route: Router, run: seq<State>, steps: seq<Step>, goal: nat)
    requires ReshardRun(route, run, steps, goal)
    ensures |run| == |steps| + 1 && |steps| > 0 && run[|steps|].log != []
    ensures Shape(route, run[|steps|]) && Reachable(route, run[|steps|]) && Toward(run[|steps|], goal)
  {
    hide Reachable, Shape, Enabled, Do;
    RunToward(route, run, steps, goal, |steps|);
  }

  lemma CreateStep(route: Router, s: State)
    requires Shape(route, s) && (s.pc.DropNew? || (s.pc.CreateNew? && !s.pc.resume))
    ensures Enabled(route, s, Coord([]))
    ensures var s' := Do(route, s, Coord([]));
      && (s'.pc.DropNew? || (s'.pc.CreateNew? && !s'.pc.resume) || s'.pc.SetState?)
      && s'.log == s.log && s'.at == s.at && s'.writers == s.writers
      && var r, r' := RankOf(Durable(s), s.pc), RankOf(Durable(s'), s'.pc);
         r'.stage < r.stage || (r'.stage == r.stage && r'.a < r.a)
  {
    hide CoordHistory, CoordParts, LogOk, Monotone;
  }

  /** A write that addresses `t` can take its first leg: the partition is there. */
  lemma PendingLive(route: Router, s: State, x: Id, t: Route)
    requires Inv(route, s) && Pending(s, x, t) && t.gen == Durable(s).cur.gen + 1
    ensures s.writers[x].leg <= 1
    ensures s.writers[x].leg == 0 ==>
            && Enabled(route, s, LiveLeg(x))
            && var s' := Do(route, s, LiveLeg(x));
               s'.pc == s.pc && s'.log == s.log && Pending(s', x, t) && s'.writers[x].leg == 1
  {
    assert LegInv(LocalOf(route, s, x));
    WriterProper(route, s, x, s.writers[x]);
    RoutedHome(route, s, x);
    hide Inv, Completed;
  }

  /** And its second, once the partition has been created. */
  lemma PendingTarget(route: Router, s: State, x: Id, t: Route)
    requires Reachable(route, s) && s.log != [] && s.pc == SetState(t.P) && t.gen == Durable(s).cur.gen + 1
    requires Pending(s, x, t) && s.writers[x].leg == 1
    ensures Enabled(route, s, TargetLeg(x)) && LandsForeign(route, s, TargetLeg(x), t)
  {
    FreshStart(route, s, s.writers[x].target.value.p);
    ReachableInv(route, s);
  }

  lemma PendingLands(route: Router, run: seq<State>, steps: seq<Step>, x: Id, t: Route)
    returns (run': seq<State>, steps': seq<Step>)
    requires ReshardRun(route, run, steps, t.P)
    requires var s := run[|steps|]; s.log != [] && s.pc == SetState(t.P) && t.gen == Durable(s).cur.gen + 1 && Pending(s, x, t)
    ensures ReshardRun(route, run', steps', t.P) && run'[0] == run[0]
    ensures LandsForeign(route, run'[|steps'| - 1], steps'[|steps'| - 1], t)
  {
    EndShape(route, run, steps, t.P);
    ReachableInv(route, run[|steps|]);
    PendingLive(route, run[|steps|], x, t);
    hide ReshardRun, Inv, Reachable, Do, Enabled, LandsForeign;
    run', steps' := run, steps;
    if run[|steps|].writers[x].leg == 0 {
      run', steps' := Extend(route, run, steps, t.P, LiveLeg(x));
      EndShape(route, run', steps', t.P);
    }
    PendingTarget(route, run'[|steps'|], x, t);
    run', steps' := Extend(route, run', steps', t.P, TargetLeg(x));
  }

  /** A node may be slow: it is brought to the entry `k` and no further. */
  lemma {:induction false} Lag(route: Router, run: seq<State>, steps: seq<Step>, goal: nat, n: Node, k: nat)
    returns (run': seq<State>, steps': seq<Step>)
    requires ReshardRun(route, run, steps, goal)
    requires var s := run[|steps|]; n in s.at && s.at[n] <= k < |s.log|
    ensures ReshardRun(route, run', steps', goal) && run'[0] == run[0]
    ensures run'[|steps'|] == run[|steps|].(at := run[|steps|].at[n := k])
    decreases k - run[|steps|].at[n]
  {
    EndShape(route, run, steps, goal);
    hide ReshardRun;
    var s := run[|steps|];
    if s.at[n] == k {
      assert s.at[n := k] == s.at;
      run', steps' := run, steps;
    } else {
      var run1, steps1 := Extend(route, run, steps, goal, NodeApply(n));
      run', steps' := Lag(route, run1, steps1, goal, n, k);
    }
  }

  /** A client that asks such a node is told to address `t`. */
  lemma SendsPending(route: Router, s: State, n: Node, x: Id, t: Route) returns (a: Step)
    requires Shape(route, s) && n in s.at && Sends(route, s, n, s.at[n], x, t) && t.gen == Durable(s).cur.gen + 1
    ensures Enabled(route, s, a) && IsOther(a)
    ensures var s' := Do(route, s, a); s'.pc == s.pc && s'.log == s.log && Pending(s', x, t)
  {
    var c := View(s, n);
    TargetsOfEntry(route, c, x);
    assert PreCutover(c);
    hide DualTargets, LogOk, Monotone, GoodPc;
    a := if x in s.writers then Retry(n, x) else StartWrite(n, x, Delete);
  }

  /** Beginning a fresh reshard is safe exactly if nothing in flight, and nothing a node
      may still route by, addresses a partition it is about to create: then, and only
      then, no run of it lets a foreign write land in the new generation. */
  lemma FreshSafeIff(route: Router, s: State, t: Route)
    requires Reachable(route, s) && Fresh(s, t)
    ensures Clear(route, s, t) <==>
            forall run, steps, i :: ReshardRun(route, run, steps, t.P) && run[0] == s && 0 <= i < |steps| ==>
              !LandsForeign(route, run[i], steps[i], t)
  {
    if Clear(route, s, t) {
      forall run, steps, i | ReshardRun(route, run, steps, t.P) && run[0] == s && 0 <= i < |steps|
        ensures !LandsForeign(route, run[i], steps[i], t)
      {
        ClearSafe(route, run, steps, t, i);
      }
    } else {
      var run, steps := NotClearLands(route, s, t);
      assert ReshardRun(route, run, steps, t.P) && LandsForeign(route, run[|steps| - 1], steps[|steps| - 1], t);
    }
  }

  lemma ClearSafe(route: Router, run: seq<State>, steps: seq<Step>, t: Route, i: nat)
    requires ReshardRun(route, run, steps, t.P) && Fresh(run[0], t) && Clear(route, run[0], t) && i < |steps|
    ensures !LandsForeign(route, run[i], steps[i], t)
  {
    hide Reachable, Clear, Tame, LandsForeign, Do, Enabled;
    if i > 0 {
      RunTame(route, run, steps, t, i);
      TameLands(route, run[i], steps[i], t);
    } else {
      BeginLands(route, run[0], t);
    }
  }

  lemma BeginLands(route: Router, s: State, t: Route)
    ensures !LandsForeign(route, s, BeginReshard(t.P), t)
  {
  }

  lemma BeginRun(route: Router, s: State, t: Route) returns (run: seq<State>, steps: seq<Step>)
    requires Reachable(route, s) && Fresh(s, t)
    ensures ReshardRun(route, run, steps, t.P) && run[0] == s && run[|steps|] == s.(pc := DropNew(t.P, 0))
  {
    hide Reachable;
    var a := BeginReshard(t.P);
    run, steps := [s, Do(route, s, a)], [a];
  }

  lemma NotClearLands(route: Router, s: State, t: Route) returns (run: seq<State>, steps: seq<Step>)
    requires Reachable(route, s) && Fresh(s, t) && !Clear(route, s, t)
    ensures ReshardRun(route, run, steps, t.P) && run[0] == s
    ensures LandsForeign(route, run[|steps| - 1], steps[|steps| - 1], t)
  {
    run, steps := BeginRun(route, s, t);
    run, steps := ToSetState(route, run, steps, t.P);
    EndShape(route, run, steps, t.P);
    hide ReshardRun, Do, Enabled, Reachable, LandsForeign, Shape;
    if x :| Pending(s, x, t) {
      run, steps := PendingLands(route, run, steps, x, t);
    } else {
      var n, k: nat, x :| Sends(route, s, n, k, x, t);
      run, steps := Lag(route, run, steps, t.P, n, k);
      EndShape(route, run, steps, t.P);
      var b := SendsPending(route, run[|steps|], n, x, t);
      run, steps := Extend(route, run, steps, t.P, b);
      run, steps := PendingLands(route, run, steps, x, t);
    }
  }
}
