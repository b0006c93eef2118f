/** Crash recovery: wherever the coordinator died, running `VectorReshard` again
    with the same target finishes, and finishes stable. */
module ReshardRecovery {
  import opened Store
  import opened ReshardMachine
  import opened ReshardInvariant
  import opened ReshardTheorems
  import opened ReshardClients

  // ---------- every coordinator step makes progress ----------

  datatype Rank = Rank(stage: nat, a: nat, b: nat, c: nat)

  predicate Below(r: Rank, q: Rank)
  {
    || r.stage < q.stage
    || (r.stage == q.stage && (r.a < q.a || (r.a == q.a && (r.b < q.b || (r.b == q.b && r.c < q.c)))))
  }

  function Left(n: nat, i: nat): (k: nat) { if i < n then n - i else 0 }

  function FromP(d: Catalog): (P: nat) { if d.rs.Some? then d.rs.value.from.P else 0 }

  /** How far the running operation is from its end. */
  function RankOf(d: Catalog, pc: Pc): (r: Rank)
  {
    match pc
    case Idle => Rank(0, 0, 0, 0)
    case DropOld(_, gone, p) => Rank(1, Left(gone.P, p), 0, 0)
    case AbortDrop(gone, p) => Rank(1, Left(gone.P, p), 0, 0)
    case Gate(_) => Rank(2, 0, 0, 0)
    case Flip(_) => Rank(3, 0, 0, 0)
    case Scan(_, pass, p) => Rank(4, (if pass == 0 then FromP(d) + 1 else 0) + Left(FromP(d), p), 1, 0)
    case Copy(_, pass, p, recs, i, sub) =>
      Rank(4, (if pass == 0 then FromP(d) + 1 else 0) + Left(FromP(d), p), 0,
           3 * Left(|recs|, i) + (if sub == Insert then 2 else if sub == Check then 1 else 0))
    case Grace(_) => Rank(5, 0, 0, 0)
    case SetState(_) => Rank(6, 0, 0, 0)
    case CreateNew(goal, p, _) => Rank(7, Left(goal, p), 0, 0)
    case DropNew(goal, p) => Rank(8, Left(goal, p), 0, 0)
    case Sweep(_, _, g, p, _) => Rank(9, Left(d.cur.gen + 2, g), Left(MAX_PARTITIONS, p), 0)
    case FinClear(_) => Rank(10, 0, 0, 0)
    case AbortClear => Rank(10, 0, 0, 0)
  }

  /** Every coordinator step lowers the rank; client and node steps leave it
      alone.  So a run without crashes takes finitely many coordinator steps. */
  lemma CoordDescends(route: Router, s: State, recs: seq<(Id, Record)>)
    requires Shape(route, s) && CoordEnabled(route, s, recs)
    ensures var s' := CoordStep(route, s, recs);
            Below(RankOf(Durable(s'), s'.pc), RankOf(Durable(s), s.pc))
  {
    hide GoodPc, CoordParts, CoordHistory;
    if s.pc.Copy? || s.pc.Scan? { CopyDescends(route, s, recs); } else { OtherDescends(route, s, recs); }
  }

  lemma CopyDescends(route: Router, s: State, recs: seq<(Id, Record)>)
    requires Shape(route, s) && CoordEnabled(route, s, recs) && (s.pc.Copy? || s.pc.Scan?)
    ensures CoordLog(s) == s.log
    ensures Below(RankOf(Durable(s), CoordPc(route, s, recs)), RankOf(Durable(s), s.pc))
  {
    hide LogOk, Monotone, HasAll, GoodRecs, IsScan, Drained;
    if s.pc.Copy? && s.pc.i < |s.pc.recs| {
      assert Left(|s.pc.recs|, s.pc.i) == 1 + Left(|s.pc.recs|, s.pc.i + 1);
    }
  }

  lemma OtherDescends(route: Router, s: State, recs: seq<(Id, Record)>)
    requires s.log != [] && CoordEnabled(route, s, recs) && !s.pc.Copy? && !s.pc.Scan?
    ensures var s' := CoordStep(route, s, recs);
            Below(RankOf(Durable(s'), s'.pc), RankOf(Durable(s), s.pc))
  {
    hide CoordParts, CoordHistory, Resolve, CopyPc, IsScan, Drained;
    if s.pc.Sweep? && s.pc.g > Durable(s).cur.gen + 1 { ResolveStage(Durable(s), s.pc.goal); }
  }

  lemma ResolveStage(d: Catalog, goal: nat)
    ensures RankOf(d, Resolve(d, goal)).stage <= 8
  {
  }

  lemma OthersKeepRank(route: Router, s: State, a: Step)
    requires Enabled(route, s, a) && IsOther(a)
    ensures Do(route, s, a).pc == s.pc && Do(route, s, a).log == s.log
  {
  }

  // ---------- the coordinator is never stuck ----------

  lemma {:induction false} Enumerate(m: map<Id, Record>) returns (recs: seq<(Id, Record)>)
    ensures IsScan(recs, m)
    decreases |m|
  {
    if m == map[] {
      recs := [];
    } else {
      var x :| x in m;
      var rest := Enumerate(m - {x});
      recs := rest + [(x, m[x])];
      ExtendScan(rest, m, x);
    }
  }

  lemma ExtendScan(rest: seq<(Id, Record)>, m: map<Id, Record>, x: Id)
    requires x in m && IsScan(rest, m - {x})
    ensures IsScan(rest + [(x, m[x])], m)
  {
    var recs := rest + [(x, m[x])];
    forall i | 0 <= i < |recs| ensures recs[i].0 in m && m[recs[i].0] == recs[i].1 {
      if i < |rest| { assert rest[i].0 in m - {x}; }
    }
    forall y | y in m ensures exists i :: 0 <= i < |recs| && recs[i].0 == y {
      if y == x {
        assert recs[|rest|].0 == y;
      } else {
        assert y in m - {x};
        var i :| 0 <= i < |rest| && rest[i].0 == y;
        assert recs[i].0 == y;
      }
    }
  }

  /** Every write in flight addresses what the durable catalog says it should. */
  predicate Resolved(route: Router, s: State)
    requires s.log != []
  {
    forall x :: x in s.writers ==> DualTargets(route, Durable(s), x) == (Some(s.writers[x].live), s.writers[x].target)
  }

  lemma ResolvedDrains(route: Router, s: State)
    requires Shape(route, s) && AllCaught(s) && Resolved(route, s) && PreCutover(Durable(s))
    ensures Drained(route, s)
  {
    hide GoodPc, Monotone;
    assert GoodCatalog(s.log[|s.log| - 1]);
    forall x | x in s.writers
      ensures s.writers[x].live == Home(route, Durable(s).rs.value.from, x) &&
              s.writers[x].target == Some(Home(route, Durable(s).rs.value.to, x))
    {
      TargetsOfEntry(route, Durable(s), x);
    }
  }

  /** With the nodes caught up and the writes in flight re-resolved, the next step
      is enabled. */
  lemma NeverStuck(route: Router, s: State) returns (recs: seq<(Id, Record)>)
    requires Shape(route, s) && !s.pc.Idle? && AllCaught(s) && Resolved(route, s)
    ensures CoordEnabled(route, s, recs)
  {
    assert GoodCatalog(s.log[|s.log| - 1]);
    hide Resolved;
    if PreCutover(Durable(s)) { ResolvedDrains(route, s); }
    hide Drained, LogOk, Monotone;
    recs := [];
    if s.pc.Scan? && s.pc.p < Durable(s).rs.value.from.P {
      recs := Enumerate(s.parts[Phys(Durable(s).rs.value.from.gen, s.pc.p)]);
    }
  }

  // ---------- and it ends where it was told to ----------

  /** The running operation is a reshard to `goal`, or one has just finished. */
  predicate Toward(s: State, goal: nat)
    requires s.log != []
  {
    if s.pc.Idle? then Durable(s).rs.None? && Durable(s).cur.P == goal
    else !s.pc.AbortClear? && !s.pc.AbortDrop? && s.pc.goal == goal && (s.pc.Sweep? ==> s.pc.resume)
  }

  /** The targets `VectorReshard` accepts in a given catalog. */
  predicate Accepted(d: Catalog, goal: nat)
  {
    1 < goal <= MAX_PARTITIONS && (PreCutover(d) ==> d.rs.value.to.P == goal)
  }

  lemma BeginToward(route: Router, s: State, goal: nat)
    requires Shape(route, s) && s.pc.Idle? && Accepted(Durable(s), goal)
    ensures Toward(s.(pc := StartReshard(Durable(s), goal)), goal)
  {
    assert GoodCatalog(s.log[|s.log| - 1]);
    hide LogOk, Monotone;
  }

  lemma CoordToward(route: Router, s: State, recs: seq<(Id, Record)>, goal: nat)
    requires Shape(route, s) && CoordEnabled(route, s, recs) && Toward(s, goal)
    ensures Toward(CoordStep(route, s, recs), goal)
  {
    hide LogOk, Monotone, CoordParts, CoordHistory;
  }

  // ---------- recovery ----------

  lemma {:induction false} CatchUpNode(route: Router, s: State, n: Node) returns (s': State)
    requires Reachable(route, s) && n in s.at && s.log != [] && s.at[n] < |s.log|
    ensures Reachable(route, s') && s' == s.(at := s.at[n := |s.log| - 1])
    decreases |s.log| - s.at[n]
  {
    if s.at[n] + 1 < |s.log| {
      ReachStep(route, s, NodeApply(n));
      s' := CatchUpNode(route, Do(route, s, NodeApply(n)), n);
    } else {
      s' := s;
      assert s.at == s.at[n := |s.log| - 1];
    }
  }

  lemma {:induction false} CatchUp(route: Router, s: State, left: set<Node>) returns (s': State)
    requires Reachable(route, s) && s.log != [] && left <= s.at.Keys
    requires forall n :: n in s.at ==> s.at[n] < |s.log| && (n in left || s.at[n] + 1 == |s.log|)
    ensures Reachable(route, s') && AllCaught(s') && s' == s.(at := s'.at) && s'.at.Keys == s.at.Keys
    decreases left
  {
    hide Reachable;
    if left == {} {
      s' := s;
    } else {
      var n :| n in left;
      var s1 := CatchUpNode(route, s, n);
      s' := CatchUp(route, s1, left - {n});
    }
  }

  /** The clients retry the writes they have in flight. */
  lemma {:induction false} Refresh(route: Router, s: State, left: set<Id>) returns (s': State)
    requires Reachable(route, s) && Shape(route, s) && AllCaught(s) && s.at != map[] && left <= s.writers.Keys
    requires forall x :: x in s.writers && x !in left ==> DualTargets(route, Durable(s), x) == (Some(s.writers[x].live), s.writers[x].target)
    ensures Reachable(route, s') && s' == s.(writers := s'.writers) && s'.writers.Keys == s.writers.Keys && Resolved(route, s')
    decreases left
  {
    hide Reachable, GoodPc, DualTargets, LogOk, Monotone;
    if left == {} {
      s' := s;
    } else {
      var x :| x in left;
      var n :| n in s.at;
      RetryResolves(route, s, n, x);
      ReachStep(route, s, Retry(n, x));
      var s1 := Do(route, s, Retry(n, x));
      ReachableInv(route, s1);
      s' := Refresh(route, s1, left - {x});
    }
  }

  lemma RetryResolves(route: Router, s: State, n: Node, x: Id)
    requires Shape(route, s) && AllCaught(s) && n in s.at && x in s.writers
    ensures Enabled(route, s, Retry(n, x))
    ensures var s' := Do(route, s, Retry(n, x));
      && s' == s.(writers := s'.writers) && s'.writers.Keys == s.writers.Keys
      && (forall y :: y in s.writers && y != x ==> s'.writers[y] == s.writers[y])
      && DualTargets(route, Durable(s), x) == (Some(s'.writers[x].live), s'.writers[x].target)
  {
    assert GoodCatalog(s.log[|s.log| - 1]);
    TargetsOfEntry(route, Durable(s), x);
    assert View(s, n) == Durable(s);
    hide DualTargets;
    assert s.writers[x := Attempt(route, View(s, n), x, s.writers[x].op, s.writers[x].landed)].Keys == s.writers.Keys;
  }

  /** The coordinator, with nodes that catch up and clients that retry, runs to
      completion. */
  lemma {:induction false} Finish(route: Router, s: State, goal: nat) returns (s': State)
    requires Reachable(route, s) && s.log != [] && s.at != map[] && Toward(s, goal)
    ensures Reachable(route, s') && s'.log != [] && s'.writers.Keys == s.writers.Keys && s'.acked == s.acked
    ensures s'.pc.Idle? && Toward(s', goal)
    decreases RankOf(Durable(s), s.pc).stage, RankOf(Durable(s), s.pc).a, RankOf(Durable(s), s.pc).b,
              RankOf(Durable(s), s.pc).c
  {
    hide Reachable, Shape, LocalInv, CoordEnabled, CoordStep, RankOf, Resolved;
    if s.pc.Idle? {
      s' := s;
    } else {
      var s1 := CaughtUp(route, s);
      var recs := NeverStuck(route, s1);
      CoordDescends(route, s1, recs);
      CoordToward(route, s1, recs, goal);
      CoordIsStep(route, s1, recs);
      ReachStep(route, s1, Coord(recs));
      s' := Finish(route, CoordStep(route, s1, recs), goal);
    }
  }

  lemma CaughtUp(route: Router, s: State) returns (s': State)
    requires Reachable(route, s) && s.at != map[]
    ensures Reachable(route, s') && AllCaught(s') && Shape(route, s') && Resolved(route, s')
    ensures s' == s.(at := s'.at, writers := s'.writers) && s'.writers.Keys == s.writers.Keys && s'.at.Keys == s.at.Keys
  {
    hide Reachable, LocalInv, Resolved;
    ReachableInv(route, s);
    var s1 := CatchUp(route, s, s.at.Keys);
    ReachableInv(route, s1);
    s' := Refresh(route, s1, s1.writers.Keys);
    ReachableInv(route, s');
  }

  lemma CoordIsStep(route: Router, s: State, recs: seq<(Id, Record)>)
    requires s.log != [] && CoordEnabled(route, s, recs)
    ensures Enabled(route, s, Coord(recs)) && Do(route, s, Coord(recs)) == CoordStep(route, s, recs)
    ensures CoordStep(route, s, recs).log != [] && CoordStep(route, s, recs).writers == s.writers
    ensures CoordStep(route, s, recs).acked == s.acked && CoordStep(route, s, recs).at == s.at
  {
    hide CoordParts, CoordPc, CoordHistory;
  }

  /** From every reachable state in which no operation is running — in
      particular from whatever a crash left behind — running `VectorReshard`
      towards an accepted target ends stable with that many partitions, whatever
      writes are in flight, as long as nodes catch up and clients retry.  The
      acknowledged content is untouched. */
  lemma Recovery(route: Router, s: State, goal: nat) returns (s': State)
    requires Reachable(route, s) && s.log != [] && s.at != map[] && s.pc.Idle? && Accepted(Durable(s), goal)
    ensures Reachable(route, s') && s'.log != [] && s'.pc.Idle? && s'.writers.Keys == s.writers.Keys && s'.acked == s.acked
    ensures Durable(s').rs.None? && Durable(s').cur.P == goal
  {
    hide Reachable, LocalInv, Shape, RankOf, Resolved;
    var s1 := CaughtUp(route, s);
    BeginToward(route, s1, goal);
    ReachStep(route, s1, BeginReshard(goal));
    s' := Finish(route, Do(route, s1, BeginReshard(goal)), goal);
  }

  /** No reachable state is stuck resharding: the target that was being built is
      always accepted again. */
  lemma NotStuckResharding(route: Router, s: State)
    requires Reachable(route, s) && s.log != [] && Durable(s).rs.Some?
    ensures Accepted(Durable(s), Durable(s).rs.value.to.P)
  {
    ReachableInv(route, s);
    assert GoodCatalog(s.log[|s.log| - 1]);
  }

  // ---------- every run of a reshard ----------

  /** A reshard to an accepted target, started in `run[0]` and not interrupted. */
  ghost predicate ReshardRun(route: Router, run: seq<State>, steps: seq<Step>, goal: nat)
  {
    && IsPath(route, run, steps) && Undisturbed(steps) && |steps| > 0 && steps[0] == BeginReshard(goal)
    && Reachable(route, run[0]) && run[0].log != [] && run[0].pc.Idle? && Accepted(Durable(run[0]), goal)
  }

  lemma {:induction false} RunToward(route: Router, run: seq<State>, steps: seq<Step>, goal: nat, i: nat)
    requires ReshardRun(route, run, steps, goal) && 1 <= i <= |steps|
    ensures Reachable(route, run[i]) && run[i].log != [] && Toward(run[i], goal) && Shape(route, run[i])
  {
    hide Reachable, Shape, LocalInv, Enabled, CoordEnabled, CoordStep;
    if i == 1 {
      ReachableInv(route, run[0]);
      BeginToward(route, run[0], goal);
      BeginDo(route, run[0], goal);
    } else {
      RunToward(route, run, steps, goal, i - 1);
      var s, a := run[i - 1], steps[i - 1];
      if a.Coord? {
        CoordEnabledBy(route, s, a);
        CoordToward(route, s, a.recs, goal);
      } else {
        OthersKeepRank(route, s, a);
      }
    }
    ReachStep(route, run[i - 1], steps[i - 1]);
    ReachableInv(route, run[i]);
  }

  lemma BeginDo(route: Router, s: State, goal: nat)
    requires Enabled(route, s, BeginReshard(goal))
    ensures s.log != [] && Do(route, s, BeginReshard(goal)) == s.(pc := StartReshard(Durable(s), goal))
  {
  }

  lemma CoordEnabledBy(route: Router, s: State, a: Step)
    requires Enabled(route, s, a) && a.Coord?
    ensures s.log != [] && CoordEnabled(route, s, a.recs) && Do(route, s, a) == CoordStep(route, s, a.recs)
    ensures CoordStep(route, s, a.recs).log != []
  {
    CoordIsStep(route, s, a.recs);
  }

  /** Whatever clients and nodes do meanwhile, a reshard that has come to its end has
      left the collection stable with the requested partition count. */
  lemma EveryRunEndsStable(route: Router, run: seq<State>, steps: seq<Step>, goal: nat)
    requires ReshardRun(route, run, steps, goal)
    ensures var s := run[|steps|]; s.log != [] && (s.pc.Idle? ==> Durable(s).rs.None? && Durable(s).cur.P == goal)
  {
    RunToward(route, run, steps, goal, |steps|);
  }

  /** And it comes to its end: the rank never rises, and falls with every step of the
      coordinator. */
  lemma {:induction false} EveryRunDescends(route: Router, run: seq<State>, steps: seq<Step>, goal: nat, i: nat, j: nat)
    requires ReshardRun(route, run, steps, goal) && 1 <= i <= j <= |steps|
    ensures run[i].log != [] && run[j].log != []
    ensures if exists k :: i <= k < j && steps[k].Coord?
            then Below(RankOf(Durable(run[j]), run[j].pc), RankOf(Durable(run[i]), run[i].pc))
            else RankOf(Durable(run[j]), run[j].pc) == RankOf(Durable(run[i]), run[i].pc)
    decreases j
  {
    hide Reachable, Shape, LocalInv, Enabled, CoordEnabled, CoordStep, RankOf, Toward;
    RunToward(route, run, steps, goal, i);
    RunToward(route, run, steps, goal, j);
    if i < j {
      EveryRunDescends(route, run, steps, goal, i, j - 1);
      RunToward(route, run, steps, goal, j - 1);
      var s, a := run[j - 1], steps[j - 1];
      if a.Coord? {
        CoordEnabledBy(route, s, a);
        CoordDescends(route, s, a.recs);
      } else {
        OthersKeepRank(route, s, a);
      }
    }
  }

  // ---------- what may read wrong afterwards ----------

  /** A step that can mark `x` wrong: the flip, if the copy harmed it, or the last leg of
      a write that did not reach the routed partition. */
  predicate MarksWrong(route: Router, s: State, a: Step, x: Id)
    requires s.log != []
  {
    || (a.Coord? && s.pc.Flip? && (x in s.h.dirty || x in s.h.lost))
    || ((a == LiveLeg(x) || a == TargetLeg(x)) && x in s.writers && !Reaches(s.writers[x], Home(route, Durable(s).cur, x)))
  }

  lemma WrongCause(route: Router, s: State, a: Step, x: Id)
    requires Enabled(route, s, a) && x !in s.h.wrong && x in Do(route, s, a).h.wrong
    ensures s.log != [] && MarksWrong(route, s, a, x)
  {
    hide CoordParts, CoordPc, CoordEnabled, PosOf, Drained, CopyParts;
    match a
    case LiveLeg(y) => CompletedOthers(route, Durable(s), Do(route, s, a).parts, s.pc, y, s.writers[y], s.h);
    case TargetLeg(y) => TargetMarks(route, s, y, x);
    case Coord(recs) =>
    case _ =>
  }

  lemma TargetMarks(route: Router, s: State, y: Id, x: Id)
    requires s.log != [] && TargetEnabled(s, y) && x !in s.h.wrong && x in TargetStep(route, s, y).h.wrong
    ensures x == y && !Reaches(s.writers[x], Home(route, Durable(s).cur, x))
  {
    hide PosOf;
    var w, s' := s.writers[y], TargetStep(route, s, y);
    LandedGrows(route, s, w.target.value, y, w.op);
    CompletedOthers(route, Durable(s), s'.parts, s.pc, y, w, s.h);
    CompletedOthers(route, Durable(s), s'.parts, s.pc, y, w, Landed(route, s, w.target.value, y, w.op));
  }

  // ---------- what is gone afterwards ----------

  /** Between the flip and the end, the partitions of `from` are going. */
  predicate Going(s: State, from: Route)
    requires s.log != []
  {
    match s.pc
    case Gate(_) => Durable(s).rs.Some? && Durable(s).rs.value.from == from
    case DropOld(_, gone, p) => gone == from && Absent(s.parts, from.gen, 0, p)
    case Idle => Absent(s.parts, from.gen, 0, from.P)
    case _ => false
  }

  /** A reshard that found the catalog on `from` has not flipped it yet, or is taking its
      partitions away. */
  predicate Leaving(s: State, from: Route)
    requires s.log != []
  {
    if Durable(s).cur == from then !s.pc.Gate? && !s.pc.DropOld? else Going(s, from)
  }

  lemma LeavingCoord(route: Router, s: State, recs: seq<(Id, Record)>, from: Route)
    requires Shape(route, s) && CoordEnabled(route, s, recs) && Leaving(s, from)
    ensures CoordStep(route, s, recs).log != [] && Leaving(CoordStep(route, s, recs), from)
  {
    CutoverGens(s);
    hide LogOk, Monotone, CoordHistory, CopyParts, IsScan, HasAll, GoodRecs;
  }

  lemma LeavingOther(route: Router, s: State, a: Step, from: Route)
    requires s.log != [] && Enabled(route, s, a) && IsOther(a) && Leaving(s, from)
    ensures Do(route, s, a).log != [] && Leaving(Do(route, s, a), from)
  {
    OthersKeepRank(route, s, a);
    OtherKeys(route, s, a);
  }

  /** Clients and nodes neither create nor remove partitions. */
  lemma OtherKeys(route: Router, s: State, a: Step)
    requires Enabled(route, s, a) && IsOther(a)
    ensures Do(route, s, a).parts.Keys == s.parts.Keys
    ensures forall ph :: ph in Do(route, s, a).parts <==> ph in s.parts
  {
    hide Completed, Landed;
    assert Do(route, s, a).parts.Keys == s.parts.Keys;
    assert forall ph :: ph in Do(route, s, a).parts <==> ph in Do(route, s, a).parts.Keys;
  }

  lemma {:induction false} RunLeaves(route: Router, run: seq<State>, steps: seq<Step>, goal: nat, i: nat)
    requires ReshardRun(route, run, steps, goal) && 1 <= i <= |steps|
    ensures run[i].log != [] && Leaving(run[i], Durable(run[0]).cur)
  {
    hide Reachable, Shape, LocalInv, Enabled, CoordEnabled, CoordStep, Leaving;
    if i == 1 {
      BeginDo(route, run[0], goal);
      BeginLeaves(run[0], goal);
    } else {
      RunLeaves(route, run, steps, goal, i - 1);
      RunToward(route, run, steps, goal, i - 1);
      var s, a := run[i - 1], steps[i - 1];
      if a.Coord? {
        CoordEnabledBy(route, s, a);
        LeavingCoord(route, s, a.recs, Durable(run[0]).cur);
      } else {
        LeavingOther(route, s, a, Durable(run[0]).cur);
      }
    }
  }

  lemma BeginLeaves(s: State, goal: nat)
    requires s.log != []
    ensures Leaving(s.(pc := StartReshard(Durable(s), goal)), Durable(s).cur)
  {
  }

  /** A finished reshard that has moved the catalog to another generation has removed
      every partition of the one it found. */
  lemma OldGone(route: Router, run: seq<State>, steps: seq<Step>, goal: nat)
    requires ReshardRun(route, run, steps, goal) && run[|steps|].pc.Idle?
    ensures run[|steps|].log != []
    ensures var s, from := run[|steps|], Durable(run[0]).cur;
      Durable(s).cur != from ==> forall p :: 0 <= p < from.P ==> Phys(from.gen, p) !in s.parts
  {
    hide Reachable, Enabled, Do;
    RunLeaves(route, run, steps, goal, |steps|);
  }

  // ---------- aborts ----------

  /** An abort of a reshard before its cutover, not interrupted. */
  ghost predicate AbortRun(route: Router, run: seq<State>, steps: seq<Step>)
  {
    && IsPath(route, run, steps) && Undisturbed(steps) && |steps| > 0 && steps[0] == BeginAbort
    && Reachable(route, run[0]) && run[0].log != [] && run[0].pc.Idle? && PreCutover(Durable(run[0]))
  }

  /** Where an abort may be that found the catalog `d`. */
  predicate Aborting(s: State, d: Catalog)
    requires s.log != [] && d.rs.Some?
  {
    match s.pc
    case AbortClear => Durable(s) == d
    case AbortDrop(gone, p) => gone == d.rs.value.to && Durable(s) == Catalog(d.cur, None) && Absent(s.parts, gone.gen, 0, p)
    case Idle => Durable(s) == Catalog(d.cur, None) && Absent(s.parts, d.rs.value.to.gen, 0, d.rs.value.to.P)
    case _ => false
  }

  lemma AbortingStep(route: Router, s: State, a: Step, d: Catalog)
    requires d.rs.Some? && Enabled(route, s, a) && (IsOther(a) || a.Coord?) && Aborting(s, d)
    ensures Do(route, s, a).log != [] && Aborting(Do(route, s, a), d)
  {
    if a.Coord? {
      hide CoordHistory;
    } else {
      OthersKeepRank(route, s, a);
      OtherKeys(route, s, a);
      hide Do, Enabled;
    }
  }

  /** A finished abort has left the catalog stable where it was routing, and has removed
      every partition of the generation that was being built. */
  lemma {:induction false} NewGone(route: Router, run: seq<State>, steps: seq<Step>, i: nat)
    requires AbortRun(route, run, steps) && 1 <= i <= |steps|
    ensures run[i].log != [] && Aborting(run[i], Durable(run[0]))
    ensures var s, d := run[i], Durable(run[0]);
      s.pc.Idle? ==> && Durable(s) == Catalog(d.cur, None)
                     && forall p :: 0 <= p < d.rs.value.to.P ==> Phys(d.rs.value.to.gen, p) !in s.parts
  {
    hide Reachable, Enabled, Do;
    if i == 1 {
      AbortBegins(route, run[0]);
    } else {
      NewGone(route, run, steps, i - 1);
      AbortingStep(route, run[i - 1], steps[i - 1], Durable(run[0]));
    }
  }

  lemma AbortBegins(route: Router, s: State)
    requires Reachable(route, s) && s.log != [] && PreCutover(Durable(s)) && Enabled(route, s, BeginAbort)
    ensures Do(route, s, BeginAbort).log != [] && Aborting(Do(route, s, BeginAbort), Durable(s))
    ensures Do(route, s, BeginAbort).pc.AbortClear?
  {
    ReachableInv(route, s);
    CutoverGens(s);
  }
}
