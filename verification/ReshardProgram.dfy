/** The coordinator's operations as the programs they are: loops over partitions and
    scanned records, one call at a time.

    Before every call the other actors take whatever steps `schedule` holds for them,
    and `faults` says which calls fail; both are arbitrary.  Each program is proved to
    stay within the step machine, so everything proved of reachable states holds
    throughout, to end where it says it does, and to fail only for the reason it gives. */
module ReshardProgram {
  import opened Store
  import opened ReshardMachine
  import opened ReshardInvariant
  import opened ReshardTheorems
  import opened ReshardRecovery
  import opened ReshardHaste
  import opened SweepSpec

  datatype Outcome = Done | Refused | CallFailed | TimedOut

  lemma ReachableLog(route: Router, s: State)
    requires Reachable(route, s)
    ensures s.log != []
  {
    ReachableInv(route, s);
  }

  /** Only the drain grace, the cutover gate and a scan have to be made ready. */
  lemma Ready(route: Router, s: State)
    requires Reachable(route, s) && s.log != [] && !s.pc.Idle? && !s.pc.Grace? && !s.pc.Gate?
    requires s.pc.Scan? ==> Durable(s).rs.Some? && s.pc.p >= Durable(s).rs.value.from.P
    ensures CoordEnabled(route, s, [])
  {
    ReachableInv(route, s);
    assert GoodCatalog(s.log[|s.log| - 1]);
    hide LogOk, Monotone, LocalInv, Placement;
  }

  lemma ScanReady(route: Router, s: State, recs: seq<(Id, Record)>)
    requires Reachable(route, s) && s.log != [] && s.pc.Scan? && Durable(s).rs.Some? && s.pc.p < Durable(s).rs.value.from.P
    ensures var ph := Phys(Durable(s).rs.value.from.gen, s.pc.p);
      ph in s.parts && (IsScan(recs, s.parts[ph]) ==> CoordEnabled(route, s, recs))
  {
    ReachableInv(route, s);
    hide LogOk, Monotone, LocalInv, Placement;
  }

  lemma GoodNow(route: Router, s: State)
    requires Reachable(route, s)
    ensures s.log != [] && GoodCatalog(Durable(s)) && Shape(route, s)
  {
    ReachableInv(route, s);
    assert GoodCatalog(s.log[|s.log| - 1]);
  }

  // ---------- what the sweep has removed ----------

  /** The sweep is at index `p` of generation `g`: of what was there, `all`, everything it
      reaches in lower generations is gone, and `gone` of this one. */
  ghost predicate Sweeping(all: set<Phys>, left: set<Phys>, live: nat, gone: set<Phys>, g: nat, p: nat, miss: nat)
  {
    && left == all - SweptBelow(all, live, g) - gone
    && p <= CLEANUP_MAX_PROBE && miss <= CLEANUP_GAP_TOLERANCE
    && (if g == live then gone == {} && p == 0 && miss == 0 else Probed(all, gone, g, p, miss))
  }

  lemma SweepStarts(all: set<Phys>, live: nat)
    ensures Sweeping(all, all, live, {}, 0, 0, 0)
  {
    ProbedStart(all, 0);
    assert all - {} - {} == all;
  }

  lemma SweepGoesOn(all: set<Phys>, left: set<Phys>, live: nat, gone: set<Phys>, g: nat, p: nat, miss: nat)
    requires Sweeping(all, left, live, gone, g, p, miss) && g != live && p < CLEANUP_MAX_PROBE && miss < CLEANUP_GAP_TOLERANCE
    ensures if Phys(g, p) in left then Sweeping(all, left - {Phys(g, p)}, live, gone + {Phys(g, p)}, g, p + 1, 0)
            else Sweeping(all, left, live, gone, g, p + 1, miss + 1)
  {
    ProbedNext(all, gone, g, p, miss);
    SweptBelowGens(all, live, g, Phys(g, p));
    hide Probed;
    var below := SweptBelow(all, live, g);
    assert Phys(g, p) in left <==> Phys(g, p) in all;
    assert all - below - (gone + {Phys(g, p)}) == all - below - gone - {Phys(g, p)};
  }

  lemma SweepMovesOn(all: set<Phys>, left: set<Phys>, live: nat, gone: set<Phys>, g: nat, p: nat, miss: nat)
    requires Sweeping(all, left, live, gone, g, p, miss)
    requires g == live || p == CLEANUP_MAX_PROBE || miss == CLEANUP_GAP_TOLERANCE
    ensures Sweeping(all, left, live, {}, g + 1, 0, 0)
  {
    ProbedStart(all, g + 1);
    if g != live { ProbedAll(all, gone, g, p, miss); }
    hide Probed, Swept;
    assert all - SweptBelow(all, live, g + 1) - {} == left;
  }

  class Coordinator {
    const route: Router
    var s: State
    var schedule: seq<seq<Step>>
    var faults: seq<bool>

    ghost predicate Valid()
      reads this
    {
      Reachable(route, s) && s.log != []
    }

    /** No call that is still to be made fails. */
    ghost predicate Faultless()
      reads this
    {
      forall i :: 0 <= i < |faults| ==> !faults[i]
    }

    constructor (r: Router, start: State, sch: seq<seq<Step>>, f: seq<bool>)
      requires Init(r, start)
      ensures Valid() && s == start && route == r && schedule == sch && faults == f
    {
      route, s, schedule, faults := r, start, sch, f;
      new;
      assert IsRun(route, [s], []);
    }

    /** The other actors' turn.  What the coordinator waits for, once there, stays. */
    method Others()
      requires Valid()
      modifies this`s, this`schedule
      ensures Valid() && s.pc == old(s.pc) && s.log == old(s.log) && s.parts.Keys == old(s.parts.Keys)
      ensures |schedule| == if old(schedule) == [] then 0 else |old(schedule)| - 1
      ensures old(schedule) == [] ==> s == old(s)
      ensures old(AllCaught(s)) ==> AllCaught(s)
      ensures old(PreCutover(Durable(s)) && Drained(route, s)) ==> Drained(route, s)
    {
      if schedule == [] { return; }
      var batch := schedule[0];
      schedule := schedule[1..];
      for i := 0 to |batch|
        invariant Valid() && s.pc == old(s.pc) && s.log == old(s.log) && s.parts.Keys == old(s.parts.Keys)
        invariant |schedule| == |old(schedule)| - 1
        invariant old(AllCaught(s)) ==> AllCaught(s)
        invariant old(PreCutover(Durable(s)) && Drained(route, s)) ==> Drained(route, s)
      {
        OneOther(batch[i]);
      }
    }

    /** One step of another actor, if it can be taken. */
    method OneOther(a: Step)
      requires Valid()
      modifies this`s
      ensures Valid() && s.pc == old(s.pc) && s.log == old(s.log) && s.parts.Keys == old(s.parts.Keys)
      ensures old(AllCaught(s)) ==> AllCaught(s)
      ensures old(PreCutover(Durable(s)) && Drained(route, s)) ==> Drained(route, s)
    {
      if IsOther(a) && Enabled(route, s, a) {
        ReachStep(route, s, a);
        OthersKeepRank(route, s, a);
        OtherKeys(route, s, a);
        GoodNow(route, s);
        if AllCaught(s) { CaughtLasts(route, s, a); }
        if PreCutover(Durable(s)) && Drained(route, s) { GraceLasts(route, s, a); }
        hide Reachable, Enabled, Do, Drained, AllCaught;
        s := Do(route, s, a);
      }
    }

    method Fails() returns (fault: bool)
      modifies this`faults
      ensures old(Faultless()) ==> Faultless() && !fault
    {
      if faults == [] { return false; }
      fault := faults[0];
      faults := faults[1..];
    }

    /** A call that fails, or that the cluster refuses, abandons the operation. */
    method Exec(recs: seq<(Id, Record)>) returns (ok: bool)
      requires Valid() && !s.pc.Idle?
      modifies this`s, this`faults
      ensures Valid()
      ensures ok ==> CoordEnabled(route, old(s), recs) && s == CoordStep(route, old(s), recs)
      ensures !ok ==> s == CrashStep(route, old(s))
      ensures old(Faultless()) ==> Faultless() && (ok <==> CoordEnabled(route, old(s), recs))
    {
      var fault := Fails();
      ok := !fault && CoordEnabled(route, s, recs);
      if ok {
        ReachStep(route, s, Coord(recs));
        s := CoordStep(route, s, recs);
        ReachableLog(route, s);
      } else {
        ReachStep(route, s, Crash);
        s := CrashStep(route, s);
      }
    }

    /** One call of the coordinator, after whatever the others do meanwhile. */
    method Tick() returns (ok: bool, ghost mid: State)
      requires Valid() && !s.pc.Idle?
      modifies this
      ensures Valid() && Reachable(route, mid)
      ensures mid.log == old(s.log) && mid.pc == old(s.pc) && mid.log != [] && mid.parts.Keys == old(s.parts.Keys)
      ensures ok ==> CoordEnabled(route, mid, []) && s == CoordStep(route, mid, [])
      ensures !ok ==> s == CrashStep(route, mid) && s.pc == Idle && s.log == old(s.log)
      ensures old(Faultless()) ==> Faultless() && (ok <==> CoordEnabled(route, mid, []))
      ensures |schedule| <= |old(schedule)|
      ensures old(AllCaught(s)) ==> AllCaught(mid)
      ensures old(PreCutover(Durable(s)) && Drained(route, s)) ==> Drained(route, mid)
    {
      Others();
      mid := s;
      ok := Exec([]);
    }

    /** A step that never has to be waited for: it fails only if the call does. */
    method Go() returns (ok: bool, ghost mid: State)
      requires Valid() && !s.pc.Idle? && !s.pc.Grace? && !s.pc.Gate?
      requires s.pc.Scan? ==> Durable(s).rs.Some? && s.pc.p >= Durable(s).rs.value.from.P
      modifies this
      ensures Valid()
      ensures mid.log == old(s.log) && mid.pc == old(s.pc) && mid.log != [] && mid.parts.Keys == old(s.parts.Keys)
      ensures ok ==> CoordEnabled(route, mid, []) && s.pc == CoordPc(route, mid, []) && s.log == CoordLog(mid) && s.parts == CoordParts(route, mid)
      ensures !ok ==> s.pc == Idle && s.log == old(s.log)
      ensures old(Faultless()) ==> Faultless() && ok
    {
      ok, mid := Tick();
      Ready(route, mid);
    }

    // ---------- the phases of a reshard ----------

    method DropNewGeneration(goal: nat) returns (ok: bool)
      requires Valid() && s.pc == DropNew(goal, 0)
      modifies this
      ensures Valid() && s.log == old(s.log)
      ensures s.pc == if ok then CreateNew(goal, 0, false) else Idle
      ensures old(Faultless()) ==> Faultless() && ok
    {
      hide CoordEnabled, Reachable, CoordParts;
      ghost var mid;
      for p := 0 to goal
        invariant Valid() && s.log == old(s.log) && s.pc == DropNew(goal, p)
        invariant old(Faultless()) ==> Faultless()
      {
        ok, mid := Go();
        if !ok { return; }
      }
      ok, mid := Go();
    }

    method CreateNewGeneration(goal: nat, resume: bool) returns (ok: bool)
      requires Valid() && s.pc == CreateNew(goal, 0, resume)
      modifies this
      ensures Valid() && s.log == old(s.log)
      ensures s.pc == if !ok then Idle else if resume then Scan(goal, 0, 0) else SetState(goal)
      ensures old(Faultless()) ==> Faultless() && ok
    {
      hide CoordEnabled, Reachable, CoordParts;
      ghost var mid;
      for p := 0 to goal
        invariant Valid() && s.log == old(s.log) && s.pc == CreateNew(goal, p, resume)
        invariant old(Faultless()) ==> Faultless()
      {
        ok, mid := Go();
        if !ok { return; }
      }
      ok, mid := Go();
    }

    /** Waits until the drain has happened or the others have had their last turn. */
    method AwaitDrained()
      requires Valid() && PreCutover(Durable(s))
      modifies this`s, this`schedule
      ensures Valid() && s.pc == old(s.pc) && s.log == old(s.log)
      ensures Drained(route, s) || schedule == []
    {
      while schedule != [] && !Drained(route, s)
        invariant Valid() && s.pc == old(s.pc) && s.log == old(s.log)
        decreases |schedule|
      {
        Others();
      }
    }

    method AwaitAllCaught()
      requires Valid()
      modifies this`s, this`schedule
      ensures Valid() && s.pc == old(s.pc) && s.log == old(s.log)
      ensures AllCaught(s) || schedule == []
    {
      while schedule != [] && !AllCaught(s)
        invariant Valid() && s.pc == old(s.pc) && s.log == old(s.log)
        decreases |schedule|
      {
        Others();
      }
    }

    /** A wait that has run out abandons the operation. */
    method Abandon()
      requires Valid() && !s.pc.Idle?
      modifies this`s
      ensures Valid() && s == CrashStep(route, old(s))
    {
      ReachStep(route, s, Crash);
      s := CrashStep(route, s);
    }

    /** Why a wait ran out: the others have had their last turn, and some node or write is
        still behind. */
    ghost predicate Behind()
      reads this
      requires s.log != []
    {
      && schedule == []
      && ((PreCutover(Durable(s)) && !Drained(route, s)) || (PostCutover(Durable(s)) && !AllCaught(s)))
    }

    /** One scanned record: insert if absent, re-check the source, guard-delete. */
    method CopyRecord(goal: nat, pass: nat, p: nat, recs: seq<(Id, Record)>, i: nat) returns (ok: bool)
      requires Valid() && s.pc == Copy(goal, pass, p, recs, i, Insert) && i < |recs|
      modifies this
      ensures Valid() && s.log == old(s.log)
      ensures s.pc == if ok then Copy(goal, pass, p, recs, i + 1, Insert) else Idle
      ensures old(Faultless()) ==> Faultless() && ok
    {
      hide CoordEnabled, Reachable, CoordParts;
      ghost var mid;
      ok, mid := Go();
      if !ok { return; }
      ok, mid := Go();
      if ok && s.pc.sub.Guard? {
        ok, mid := Go();
      }
    }

    /** One source partition: scan it, copy every record. */
    method CopyPartition(goal: nat, pass: nat, p: nat) returns (ok: bool)
      requires Valid() && s.pc == Scan(goal, pass, p) && Durable(s).rs.Some? && p < Durable(s).rs.value.from.P
      modifies this
      ensures Valid() && s.log == old(s.log)
      ensures s.pc == if ok then Scan(goal, pass, p + 1) else Idle
      ensures old(Faultless()) ==> Faultless() && ok
    {
      hide Reachable, CoordParts, CoordHistory, IsScan;
      Others();
      ScanReady(route, s, []);
      var recs := ListRecords(s.parts[Phys(Durable(s).rs.value.from.gen, p)]);
      ScanReady(route, s, recs);
      ok := Exec(recs);
      if !ok { return; }
      for i := 0 to |recs|
        invariant Valid() && s.log == old(s.log) && s.pc == Copy(goal, pass, p, recs, i, Insert)
        invariant old(Faultless()) ==> Faultless()
      {
        ok := CopyRecord(goal, pass, p, recs, i);
        if !ok { return; }
      }
      ghost var mid;
      ok, mid := Go();
    }

    /** `reshardCopyPass`. */
    method CopyPass(goal: nat, pass: nat) returns (ok: bool)
      requires Valid() && s.pc == Scan(goal, pass, 0) && Durable(s).rs.Some?
      modifies this
      ensures Valid() && s.log == old(s.log)
      ensures s.pc == if !ok then Idle else if pass == 0 then Scan(goal, 1, 0) else Flip(goal)
      ensures old(Faultless()) ==> Faultless() && ok
    {
      hide CoordEnabled, Reachable, CoordParts;
      for p := 0 to Durable(s).rs.value.from.P
        invariant Valid() && s.log == old(s.log) && s.pc == Scan(goal, pass, p)
        invariant old(Faultless()) ==> Faultless()
      {
        ok := CopyPartition(goal, pass, p);
        if !ok { return; }
      }
      ghost var mid;
      ok, mid := Go();
    }

    /** The drop of the old generation, partition by partition. */
    method DropOldGeneration(goal: nat, gone: Route) returns (ok: bool)
      requires Valid() && s.pc == DropOld(goal, gone, 0)
      modifies this
      ensures Valid() && s.pc == Idle && s.log == old(s.log)
      ensures ok ==> forall p :: 0 <= p < gone.P ==> Phys(gone.gen, p) !in s.parts
      ensures old(Faultless()) ==> Faultless() && ok
    {
      hide CoordEnabled, Reachable;
      ghost var mid;
      for p := 0 to gone.P
        invariant Valid() && s.pc == DropOld(goal, gone, p) && s.log == old(s.log)
        invariant forall q :: 0 <= q < p ==> Phys(gone.gen, q) !in s.parts.Keys
        invariant old(Faultless()) ==> Faultless()
      {
        ok, mid := Go();
        if !ok { return; }
      }
      ok, mid := Go();
    }

    /** The catalog flip, the all-nodes gate, the end of dual writes, and the drop of
        the old generation. */
    method Cutover(goal: nat) returns (r: Outcome)
      requires Valid() && s.pc == Flip(goal) && Durable(s).rs.Some?
      modifies this
      ensures Valid() && s.pc == Idle && r != Refused
      ensures r == Done ==>
        && Durable(s) == Catalog(old(Durable(s)).rs.value.to, None)
        && forall p :: 0 <= p < old(Durable(s)).rs.value.from.P ==> Phys(old(Durable(s)).rs.value.from.gen, p) !in s.parts
      ensures old(Faultless()) ==> r != CallFailed
      ensures r == TimedOut ==> Behind()
    {
      hide CoordEnabled, Reachable, CoordParts;
      ghost var mid;
      var ok;
      ok, mid := Go();
      if !ok { return CallFailed; }
      AwaitAllCaught();
      if !AllCaught(s) {
        Abandon();
        return TimedOut;
      }
      ok := PassGate(goal);
      if !ok { return CallFailed; }
      ok := DropOldGeneration(goal, s.pc.gone);
      r := if ok then Done else CallFailed;
    }

    /** With every node on the flip, dual writes end. */
    method PassGate(goal: nat) returns (ok: bool)
      requires Valid() && s.pc == Gate(goal) && Durable(s).rs.Some? && AllCaught(s)
      modifies this
      ensures Valid()
      ensures if ok then s.log == old(s.log) + [Catalog(old(Durable(s)).cur, None)] && s.pc == DropOld(goal, old(Durable(s)).rs.value.from, 0)
              else s.pc == Idle
      ensures old(Faultless()) ==> Faultless() && ok
    {
      ghost var mid;
      ok, mid := Tick();
    }

    /** Everything from the first copy pass on. */
    method CopyAndCutover(goal: nat) returns (r: Outcome)
      requires Valid() && s.pc == Scan(goal, 0, 0) && Durable(s).rs.Some?
      modifies this
      ensures Valid() && s.pc == Idle && r != Refused
      ensures r == Done ==>
        && Durable(s) == Catalog(old(Durable(s)).rs.value.to, None)
        && forall p :: 0 <= p < old(Durable(s)).rs.value.from.P ==> Phys(old(Durable(s)).rs.value.from.gen, p) !in s.parts
      ensures old(Faultless()) ==> r != CallFailed
      ensures r == TimedOut ==> Behind()
    {
      var ok := CopyPass(goal, 0);
      if !ok { return CallFailed; }
      ok := CopyPass(goal, 1);
      if !ok { return CallFailed; }
      r := Cutover(goal);
    }

    /** The orphan sweep over every generation but the live one: it removes exactly what
        the bounded probe reaches. */
    method SweepOrphans(goal: nat, resume: bool) returns (ok: bool)
      requires Valid() && s.pc == Sweep(goal, resume, 0, 0, 0)
      modifies this
      ensures Valid() && s.log == old(s.log)
      ensures s.pc == if ok && resume then Resolve(Durable(s), goal) else Idle
      ensures ok ==> s.parts.Keys == old(s.parts.Keys) - SweptBelow(old(s.parts.Keys), Durable(s).cur.gen, Durable(s).cur.gen + 2)
      ensures old(Faultless()) ==> Faultless() && ok
    {
      hide Reachable;
      ghost var all, live, gone := s.parts.Keys, Durable(s).cur.gen, {};
      SweepStarts(all, live);
      ok := true;
      while ok && s.pc.Sweep? && s.pc.g <= Durable(s).cur.gen + 1
        invariant Valid() && s.log == old(s.log) && live == Durable(s).cur.gen
        invariant if ok then s.pc.Sweep? && s.pc.goal == goal && s.pc.resume == resume && s.pc.g <= live + 2 &&
                             Sweeping(all, s.parts.Keys, live, gone, s.pc.g, s.pc.p, s.pc.miss)
                  else s.pc == Idle
        invariant ok && s.pc.g == live + 2 ==> s.pc.p == 0
        invariant old(Faultless()) ==> Faultless() && ok
        decreases ok, if s.pc.Sweep? then Durable(s).cur.gen + 2 - s.pc.g else 0, if s.pc.Sweep? then MAX_PARTITIONS - s.pc.p else 0
      {
        ok, gone := SweepOne(all, gone);
      }
      if ok {
        assert gone == {};
        ghost var mid;
        ok, mid := Go();
        assert all - SweptBelow(all, live, live + 2) - {} == all - SweptBelow(all, live, live + 2);
      }
    }

    /** One probe of the sweep, or the step to the next generation. */
    method SweepOne(ghost all: set<Phys>, ghost gone: set<Phys>) returns (ok: bool, ghost gone': set<Phys>)
      requires Valid() && s.pc.Sweep? && s.pc.g <= Durable(s).cur.gen + 1
      requires Sweeping(all, s.parts.Keys, Durable(s).cur.gen, gone, s.pc.g, s.pc.p, s.pc.miss)
      modifies this
      ensures Valid() && s.log == old(s.log)
      ensures ok ==>
        && s.pc.Sweep? && s.pc.goal == old(s.pc.goal) && s.pc.resume == old(s.pc.resume)
        && Sweeping(all, s.parts.Keys, Durable(s).cur.gen, gone', s.pc.g, s.pc.p, s.pc.miss)
        && ((s.pc.g == old(s.pc.g) + 1 && s.pc.p == 0) || (s.pc.g == old(s.pc.g) && s.pc.p == old(s.pc.p) + 1))
      ensures !ok ==> s.pc == Idle
      ensures old(Faultless()) ==> Faultless() && ok
    {
      ghost var pc, left, live := s.pc, s.parts.Keys, Durable(s).cur.gen;
      ghost var mid;
      ok, mid := Go();
      gone' := {};
      if ok {
        assert Phys(pc.g, pc.p) in mid.parts <==> Phys(pc.g, pc.p) in left;
        if pc.g == live || pc.p >= MAX_PARTITIONS || pc.miss >= GAP_TOLERANCE {
          SweepMovesOn(all, left, live, gone, pc.g, pc.p, pc.miss);
        } else {
          SweepGoesOn(all, left, live, gone, pc.g, pc.p, pc.miss);
          gone' := if Phys(pc.g, pc.p) in left then gone + {Phys(pc.g, pc.p)} else gone;
        }
        SweepKeys(route, mid);
      }
    }

    /** Phase 1: dual writes are turned on, and the drain grace passes. */
    method TurnOnDualWrites(goal: nat) returns (r: Outcome)
      requires Valid() && s.pc == SetState(goal)
      modifies this
      ensures Valid() && r != Refused
      ensures if r == Done then
                && s.pc == Scan(goal, 0, 0)
                && Durable(s) == Catalog(old(Durable(s)).cur, Some(Pins(old(Durable(s)).cur, Route(goal, old(Durable(s)).cur.gen + 1))))
              else s.pc == Idle
      ensures old(Faultless()) ==> Faultless() && r != CallFailed
      ensures r == TimedOut ==> Behind()
    {
      hide CoordEnabled, Reachable, CoordParts;
      ghost var mid;
      var ok;
      ok, mid := Go();
      if !ok { return CallFailed; }
      AwaitDrained();
      if !Drained(route, s) {
        Abandon();
        return TimedOut;
      }
      ok := PassGrace(goal);
      r := if ok then Done else CallFailed;
    }

    /** With every node and every write in flight on both generations, the copy begins. */
    method PassGrace(goal: nat) returns (ok: bool)
      requires Valid() && s.pc == Grace(goal) && PreCutover(Durable(s)) && Drained(route, s)
      modifies this
      ensures Valid() && s.log == old(s.log)
      ensures s.pc == if ok then Scan(goal, 0, 0) else Idle
      ensures old(Faultless()) ==> Faultless() && ok
    {
      ghost var mid;
      ok, mid := Tick();
    }

    /** `finalizeIfPostCutover` and the decision that follows it, without any wait. */
    method Begin(goal: nat) returns (r: Outcome)
      requires Valid() && s.pc == Idle
      modifies this
      ensures Valid() && r != TimedOut
      ensures r == Refused <==> !(1 < goal <= MAX_PARTITIONS)
      ensures r == CallFailed ==> PostCutover(old(Durable(s)))
      ensures r != Done ==> s.pc == Idle
      ensures r == Done ==> s.pc == Resolve(Durable(s), goal)
      ensures r == Done && !PostCutover(old(Durable(s))) ==> s.log == old(s.log) && s.parts.Keys == old(s.parts.Keys)
      ensures r == Done && PostCutover(old(Durable(s))) ==>
        && Durable(s) == Catalog(old(Durable(s)).cur, None)
        && s.parts.Keys == old(s.parts.Keys) - SweptBelow(old(s.parts.Keys), Durable(s).cur.gen, Durable(s).cur.gen + 2)
      ensures old(Faultless()) ==> Faultless() && r != CallFailed
    {
      hide Reachable;
      if goal <= 1 || goal > MAX_PARTITIONS { return Refused; }
      Others();
      BeginReach(goal);
      if s.pc.FinClear? {
        ghost var mid;
        var ok;
        ok, mid := Go();
        if !ok { return CallFailed; }
        ok := SweepOrphans(goal, true);
        if !ok { return CallFailed; }
      }
      r := Done;
    }

    method BeginReach(goal: nat)
      requires Valid() && s.pc == Idle
      modifies this`s
      ensures Valid() && s == old(s).(pc := StartReshard(Durable(s), goal))
    {
      ReachStep(route, s, BeginReshard(goal));
      s := s.(pc := StartReshard(Durable(s), goal));
    }

    /** `VectorReshard`.  Whatever the others do: it is refused exactly on a target it does
        not accept; success leaves the collection stable with `goal` partitions, without
        the generation it moved away from; it fails only if a call fails, or if the
        others have had all their turns and are still behind. */
    method VectorReshard(goal: nat) returns (r: Outcome)
      requires Valid() && s.pc == Idle
      modifies this
      ensures Valid() && s.pc == Idle
      ensures r == Refused <==> !Accepted(old(Durable(s)), goal)
      ensures r == Done ==> Durable(s).rs == None && Durable(s).cur.P == goal
      ensures r == Done && Durable(s).cur != old(Durable(s)).cur ==>
        forall p :: 0 <= p < old(Durable(s)).cur.P ==> Phys(old(Durable(s)).cur.gen, p) !in s.parts
      ensures old(Faultless()) ==> r != CallFailed
      ensures r == TimedOut ==> Behind()
    {
      hide CoordEnabled, Reachable, CoordParts;
      GoodNow(route, s);
      r := Begin(goal);
      if r != Done { return; }
      GoodNow(route, s);
      if s.pc.Idle? { return if Durable(s).rs.None? then Done else Refused; }
      r := BuildAndMove(goal);
    }

    /** Creates the new generation, turns on dual writes unless they are on, copies and
        cuts over. */
    method BuildAndMove(goal: nat) returns (r: Outcome)
      requires Valid() && s.pc == Resolve(Durable(s), goal) && !s.pc.Idle? && GoodCatalog(Durable(s))
      modifies this
      ensures Valid() && s.pc == Idle && r != Refused
      ensures r == Done ==> Durable(s) == Catalog(Route(goal, old(Durable(s)).cur.gen + 1), None)
      ensures r == Done ==> forall p :: 0 <= p < old(Durable(s)).cur.P ==> Phys(old(Durable(s)).cur.gen, p) !in s.parts
      ensures old(Faultless()) ==> r != CallFailed
      ensures r == TimedOut ==> Behind()
    {
      hide CoordEnabled, Reachable, CoordParts, Drained, AllCaught;
      var resume := s.pc.CreateNew?;
      if !resume {
        var ok := DropNewGeneration(goal);
        if !ok { return CallFailed; }
      }
      var ok := CreateNewGeneration(goal, resume);
      if !ok { return CallFailed; }
      if !resume {
        r := TurnOnDualWrites(goal);
        if r != Done { return; }
      }
      r := CopyAndCutover(goal);
    }

    /** `VectorReshardAbort`: refused exactly unless a reshard is before its cutover;
        success leaves the collection stable on the generation it was routing to, without
        the one that was being built; it fails only if a call fails. */
    method VectorReshardAbort() returns (r: Outcome)
      requires Valid() && s.pc == Idle
      modifies this
      ensures Valid() && s.pc == Idle && r != TimedOut
      ensures r == Refused <==> !(old(Durable(s)).rs.Some? && old(Durable(s)).cur != old(Durable(s)).rs.value.to)
      ensures r == Done ==>
        && Durable(s) == Catalog(old(Durable(s)).cur, None)
        && forall p :: 0 <= p < old(Durable(s)).rs.value.to.P ==> Phys(old(Durable(s)).rs.value.to.gen, p) !in s.parts
      ensures old(Faultless()) ==> r != CallFailed
    {
      hide CoordEnabled, Reachable, CoordParts;
      Others();
      BeginAbortReach();
      if s.pc.Idle? { return Refused; }
      ghost var mid;
      var ok;
      ok, mid := Go();
      if !ok { return CallFailed; }
      ok := DropAborted(s.pc.gone);
      r := if ok then Done else CallFailed;
    }

    method BeginAbortReach()
      requires Valid() && s.pc == Idle
      modifies this`s
      ensures Valid() && s == old(s).(pc := StartAbort(Durable(s)))
    {
      ReachStep(route, s, BeginAbort);
      s := s.(pc := StartAbort(Durable(s)));
    }

    /** The drop of the generation that was being built, partition by partition. */
    method DropAborted(gone: Route) returns (ok: bool)
      requires Valid() && s.pc == AbortDrop(gone, 0)
      modifies this
      ensures Valid() && s.pc == Idle && s.log == old(s.log)
      ensures ok ==> forall p :: 0 <= p < gone.P ==> Phys(gone.gen, p) !in s.parts
      ensures old(Faultless()) ==> Faultless() && ok
    {
      hide CoordEnabled, Reachable;
      ghost var mid;
      for p := 0 to gone.P
        invariant Valid() && s.pc == AbortDrop(gone, p) && s.log == old(s.log)
        invariant forall q :: 0 <= q < p ==> Phys(gone.gen, q) !in s.parts.Keys
        invariant old(Faultless()) ==> Faultless()
      {
        ok, mid := Go();
        if !ok { return; }
      }
      ok, mid := Go();
    }
  }

  /** The partition a step of the sweep removes. */
  lemma SweepKeys(route: Router, s: State)
    requires s.log != [] && s.pc.Sweep? && s.pc.g <= Durable(s).cur.gen + 1 && CoordEnabled(route, s, [])
    ensures var ph := Phys(s.pc.g, s.pc.p);
      CoordParts(route, s).Keys ==
      if s.pc.g != Durable(s).cur.gen && s.pc.p < MAX_PARTITIONS && s.pc.miss < GAP_TOLERANCE then s.parts.Keys - {ph} else s.parts.Keys
  {
    assert Phys(s.pc.g, s.pc.p) !in s.parts ==> s.parts.Keys - {Phys(s.pc.g, s.pc.p)} == s.parts.Keys;
  }

  /** What a scan of one partition returns, in some order. */
  method ListRecords(m: map<Id, Record>) returns (recs: seq<(Id, Record)>)
    ensures IsScan(recs, m)
  {
    recs := [];
    var left := m.Keys;
    while left != {}
      invariant left <= m.Keys && IsScan(recs, m - left)
      decreases |left|
    {
      var x :| x in left;
      assert (m - (left - {x})) - {x} == m - left;
      ExtendScan(recs, m - (left - {x}), x);
      recs := recs + [(x, m[x])];
      left := left - {x};
    }
    assert m - left == m;
  }
}
