/** A resume skips the drain grace.  This module says exactly when that is safe: when no
    write, in flight or still to come through a node that lags, can miss the generation
    being built. */
module ReshardResume {
  import opened Store
  import opened ReshardMachine
  import opened ReshardInvariant
  import opened ReshardClients
  import opened ReshardTheorems
  import opened ReshardRecovery
  import opened ReshardHaste
  import opened ReshardFresh

  /** The next leg of a write in flight can land: now, or once the resume has created the
      partitions of `t` that are missing. */
  predicate CanLand(s: State, w: Writer, t: Route)
  {
    || (w.leg == 0 && w.live in s.parts)
    || (w.leg == 1 && w.target.Some? &&
        (w.target.value in s.parts || w.target.value.gen < w.live.gen || Within(t, w.target.value)))
  }

  /** Every write of `x` in flight that can land addresses `x`'s partition of `t`. */
  predicate InFlightCovered(route: Router, s: State, x: Id, t: Route)
  {
    x in s.writers && CanLand(s, s.writers[x], t) ==> Reaches(s.writers[x], Home(route, t, x))
  }

  /** The entry at `k` tells a write of `x` that can land to address its partition of `t`. */
  predicate EntryCovered(route: Router, s: State, k: nat, x: Id, t: Route)
    requires k < |s.log|
  {
    Partitioned(s.log[k]) ==>
      var w := Attempt(route, s.log[k], x, Delete, false);
      w.live in s.parts ==> Reaches(w, Home(route, t, x))
  }

  /** Every entry node `n` routes by, now or before it has caught up, does. */
  ghost predicate NodeCovered(route: Router, s: State, n: Node, t: Route)
  {
    forall k: nat, x :: n in s.at && s.at[n] <= k < |s.log| ==> EntryCovered(route, s, k, x, t)
  }

  ghost predicate Covered(route: Router, s: State, t: Route)
  {
    && (forall x :: InFlightCovered(route, s, x, t))
    && (forall n :: n in s.at ==> NodeCovered(route, s, n, t))
  }

  // ---------- safe if covered ----------

  /** Where a resumed reshard to `t` may be, and what the catalog then says. */
  predicate ResumePc(d: Catalog, pc: Pc, t: Route)
  {
    match pc
    case CreateNew(goal, _, resume) => goal == t.P && resume && PreCutover(d) && d.rs.value.to == t
    case Scan(_, _, _) => PreCutover(d) && d.rs.value.to == t
    case Copy(_, _, _, _, _, _) => PreCutover(d) && d.rs.value.to == t
    case Flip(_) => PreCutover(d) && d.rs.value.to == t
    case Gate(_) => !PreCutover(d)
    case DropOld(_, _, _) => !PreCutover(d)
    case Idle => !PreCutover(d)
    case _ => false
  }

  ghost predicate Held(route: Router, s: State, t: Route)
    requires s.log != []
  {
    ResumePc(Durable(s), s.pc, t) && (PreCutover(Durable(s)) ==> Covered(route, s, t))
  }

  lemma ClientHeld(route: Router, s: State, a: Step, t: Route)
    requires Shape(route, s) && Held(route, s, t) && Enabled(route, s, a) && IsOther(a)
    ensures Do(route, s, a).log == s.log && Held(route, Do(route, s, a), t)
  {
    OthersKeepRank(route, s, a);
    var s' := Do(route, s, a);
    if PreCutover(Durable(s)) {
      OtherKeys(route, s, a);
      OldEntries(s, t);
      hide Do, Enabled, Shape, InFlightCovered, NodeCovered;
      forall x ensures InFlightCovered(route, s', x, t) { InFlightStep(route, s, a, t, x); }
      forall n | n in s'.at ensures NodeCovered(route, s', n, t) {
        OtherAt(route, s, a, n);
        NodeStays(route, s, s', n, t);
      }
    }
  }

  /** No entry routes to the generation being built. */
  lemma OldEntries(s: State, t: Route)
    requires LogOk(s.log) && PreCutover(Durable(s)) && Durable(s).rs.value.to == t
    ensures forall k :: 0 <= k < |s.log| ==> s.log[k].cur.gen < t.gen && GoodCatalog(s.log[k])
  {
    CutoverGens(s);
  }

  lemma NodeStays(route: Router, s: State, s': State, n: Node, t: Route)
    requires n in s.at && n in s'.at && s.at[n] <= s'.at[n] && s'.log == s.log && NodeCovered(route, s, n, t)
    requires forall ph :: ph in s'.parts && ph.gen != t.gen ==> ph in s.parts
    requires forall k :: 0 <= k < |s.log| ==> s.log[k].cur.gen < t.gen && GoodCatalog(s.log[k])
    ensures NodeCovered(route, s', n, t)
  {
    forall k: nat, x | s'.at[n] <= k < |s'.log| ensures EntryCovered(route, s', k, x, t) {
      assert EntryCovered(route, s, k, x, t);
      TargetsOfEntry(route, s.log[k], x);
    }
  }

  lemma InFlightStep(route: Router, s: State, a: Step, t: Route, x: Id)
    requires Shape(route, s) && Covered(route, s, t) && Enabled(route, s, a) && IsOther(a)
    requires Do(route, s, a).parts.Keys == s.parts.Keys
    ensures InFlightCovered(route, Do(route, s, a), x, t)
  {
    var s' := Do(route, s, a);
    assert forall ph :: ph in s'.parts <==> ph in s.parts;
    assert InFlightCovered(route, s, x, t);
    hide Completed, Landed, Shape, DualTargets;
    if (a.StartWrite? || a.Retry?) && a.x == x {
      var k := s.at[a.n];
      assert NodeCovered(route, s, a.n, t);
      assert EntryCovered(route, s, k, x, t);
    }
  }

  lemma CoordHeld(route: Router, s: State, recs: seq<(Id, Record)>, t: Route)
    requires Inv(route, s) && Held(route, s, t) && CoordEnabled(route, s, recs)
    ensures CoordStep(route, s, recs).log != [] && Held(route, CoordStep(route, s, recs), t)
  {
    var s' := CoordStep(route, s, recs);
    CoordPcHeld(route, s, recs, t);
    if PreCutover(Durable(s')) {
      OldEntries(s, t);
      forall x | x in s.writers ensures s.writers[x].live.gen < t.gen { WriterProper(route, s, x, s.writers[x]); }
      hide CoordStep, CoordEnabled, Inv;
      forall x ensures InFlightCovered(route, s', x, t) { assert InFlightCovered(route, s, x, t); }
      forall n | n in s'.at ensures NodeCovered(route, s', n, t) { NodeStays(route, s, s', n, t); }
    }
  }

  /** Before the cutover a resumed reshard changes no entry and only creates partitions. */
  lemma CoordPcHeld(route: Router, s: State, recs: seq<(Id, Record)>, t: Route)
    requires Shape(route, s) && ResumePc(Durable(s), s.pc, t) && CoordEnabled(route, s, recs)
    ensures var s' := CoordStep(route, s, recs);
      && s'.log != [] && ResumePc(Durable(s'), s'.pc, t)
      && s'.at == s.at && s'.writers == s.writers
      && (PreCutover(Durable(s')) ==>
            && PreCutover(Durable(s)) && Durable(s).rs.value.to == t && s'.log == s.log
            && (forall ph :: ph in s'.parts ==> ph in s.parts || Within(t, ph))
            && forall ph :: ph in s.parts ==> ph in s'.parts)
  {
    if s.pc.Copy? {
      CopyHeld(route, s, t);
      hide CoordHistory, Shape, CoordParts, CoordLog, CoordPc, CoordEnabled;
    } else {
      OtherHeld(route, s, recs, t);
      hide CoordHistory, Shape, CoordParts, CoordLog, CoordPc, CoordEnabled;
    }
  }

  lemma OtherHeld(route: Router, s: State, recs: seq<(Id, Record)>, t: Route)
    requires Shape(route, s) && ResumePc(Durable(s), s.pc, t) && CoordEnabled(route, s, recs) && !s.pc.Copy?
    ensures var log := CoordLog(s);
      && log != [] && ResumePc(log[|log| - 1], CoordPc(route, s, recs), t)
      && (PreCutover(log[|log| - 1]) ==>
            && PreCutover(Durable(s)) && Durable(s).rs.value.to == t && log == s.log
            && (forall ph :: ph in CoordParts(route, s) ==> ph in s.parts || Within(t, ph))
            && forall ph :: ph in s.parts ==> ph in CoordParts(route, s))
  {
    CutoverGens(s);
    hide LogOk, Monotone, IsScan, HasAll;
  }

  lemma CopyHeld(route: Router, s: State, t: Route)
    requires Shape(route, s) && ResumePc(Durable(s), s.pc, t) && CoordEnabled(route, s, []) && s.pc.Copy?
    ensures CoordLog(s) == s.log && CoordParts(route, s).Keys == s.parts.Keys
    ensures CoordPc(route, s, []).Copy? || CoordPc(route, s, []).Scan?
  {
    hide LogOk, Monotone, GoodRecs, CoordHistory;
  }

  // ---------- whole runs ----------

  /** A reshard interrupted before its cutover. */
  predicate Interrupted(s: State, t: Route)
  {
    s.log != [] && s.pc.Idle? && PreCutover(Durable(s)) && Durable(s).rs.value.to == t
  }

  lemma BeginHeld(route: Router, s: State, t: Route)
    requires Shape(route, s) && Interrupted(s, t)
    ensures StartReshard(Durable(s), t.P) == CreateNew(t.P, 0, true)
    ensures Covered(route, s, t) ==> Held(route, s.(pc := StartReshard(Durable(s), t.P)), t)
  {
    CutoverGens(s);
    assert GoodCatalog(s.log[|s.log| - 1]);
    hide LogOk, Monotone;
    if Covered(route, s, t) {
      var s' := s.(pc := StartReshard(Durable(s), t.P));
      forall x ensures InFlightCovered(route, s', x, t) { assert InFlightCovered(route, s, x, t); }
      forall n | n in s'.at ensures NodeCovered(route, s', n, t) {
        assert NodeCovered(route, s, n, t);
        forall k: nat, x | s'.at[n] <= k < |s'.log| ensures EntryCovered(route, s', k, x, t) {
          assert EntryCovered(route, s, k, x, t);
        }
      }
    }
  }

  lemma {:induction false} RunHeld(route: Router, run: seq<State>, steps: seq<Step>, t: Route, i: nat)
    requires ReshardRun(route, run, steps, t.P) && Interrupted(run[0], t) && Covered(route, run[0], t) && 1 <= i <= |steps|
    ensures run[i].log != [] && Held(route, run[i], t)
  {
    hide Reachable, Shape, LocalInv, Enabled, Do, CoordEnabled, CoordStep, Held, Covered;
    if i == 1 {
      ReachableInv(route, run[0]);
      BeginHeld(route, run[0], t);
      BeginDo(route, run[0], t.P);
    } else {
      RunHeld(route, run, steps, t, i - 1);
      RunToward(route, run, steps, t.P, i - 1);
      var s, a := run[i - 1], steps[i - 1];
      if a.Coord? {
        CoordEnabledBy(route, s, a);
        ReachableInv(route, s);
        CoordHeld(route, s, a.recs, t);
      } else {
        ClientHeld(route, s, a, t);
      }
    }
  }

  lemma HeldHits(route: Router, s: State, a: Step, t: Route, x: Id)
    requires s.log != [] && Held(route, s, t) && Enabled(route, s, a)
    ensures !Misses(route, s, a, x)
  {
    if PreCutover(Durable(s)) { assert InFlightCovered(route, s, x, t); }
  }

  lemma CoveredSafe(route: Router, run: seq<State>, steps: seq<Step>, t: Route, i: nat, x: Id)
    requires ReshardRun(route, run, steps, t.P) && Interrupted(run[0], t) && Covered(route, run[0], t) && i < |steps|
    ensures run[i].log != [] && !Misses(route, run[i], steps[i], x)
  {
    hide Reachable, Covered, Held, Do, Enabled;
    if i > 0 {
      RunHeld(route, run, steps, t, i);
      HeldHits(route, run[i], steps[i], t, x);
    }
  }

  // ---------- unsafe if not ----------

  lemma ResumeStep(route: Router, s: State)
    requires Shape(route, s) && s.pc.CreateNew? && s.pc.resume
    ensures Enabled(route, s, Coord([]))
    ensures var s' := Do(route, s, Coord([]));
      && ((s'.pc.CreateNew? && s'.pc.resume) || s'.pc.Scan?)
      && s'.log == s.log && s'.at == s.at && s'.writers == s.writers
      && (forall ph :: ph in s.parts ==> ph in s'.parts)
      && var r, r' := RankOf(Durable(s), s.pc), RankOf(Durable(s'), s'.pc);
         r'.stage < r.stage || (r'.stage == r.stage && r'.a < r.a)
  {
    hide CoordHistory, LogOk, Monotone;
  }

  /** The coordinator goes on, undisturbed, to its first scan. */
  lemma {:induction false} ToScan(route: Router, run: seq<State>, steps: seq<Step>, goal: nat)
    returns (run': seq<State>, steps': seq<Step>)
    requires ReshardRun(route, run, steps, goal)
    requires var s := run[|steps|]; s.log != [] && ((s.pc.CreateNew? && s.pc.resume) || s.pc.Scan?)
    ensures ReshardRun(route, run', steps', goal) && run'[0] == run[0]
    ensures var s, s' := run[|steps|], run'[|steps'|];
      && s'.pc.Scan? && s'.log == s.log && s'.at == s.at && s'.writers == s.writers
      && forall ph :: ph in s.parts ==> ph in s'.parts
    decreases RankOf(Durable(run[|steps|]), run[|steps|].pc).stage, RankOf(Durable(run[|steps|]), run[|steps|].pc).a
  {
    EndShape(route, run, steps, goal);
    hide ReshardRun, Enabled, Do;
    var s := run[|steps|];
    if s.pc.Scan? {
      run', steps' := run, steps;
    } else {
      ResumeStep(route, s);
      var run1, steps1 := Extend(route, run, steps, goal, Coord([]));
      run', steps' := ToScan(route, run1, steps1, goal);
    }
  }

  /** During the scan every partition of `t` is there, so what can land does. */
  lemma LandsNow(route: Router, s: State, x: Id, t: Route) returns (a: Step)
    requires Shape(route, s) && s.pc.Scan? && PreCutover(Durable(s)) && Durable(s).rs.value.to == t
    requires x in s.writers && CanLand(s, s.writers[x], t) && !Reaches(s.writers[x], Home(route, t, x))
    ensures Enabled(route, s, a) && IsOther(a) && Misses(route, s, a, x)
  {
    hide LogOk, Monotone, Home;
    a := if s.writers[x].leg == 0 then LiveLeg(x) else TargetLeg(x);
  }

  /** A client asks a node that routes by an entry that leaves `t` out. */
  lemma AsksLagging(route: Router, s: State, n: Node, x: Id, t: Route) returns (a: Step)
    requires Shape(route, s) && n in s.at && s.at[n] < |s.log| && !EntryCovered(route, s, s.at[n], x, t)
    ensures Enabled(route, s, a) && IsOther(a)
    ensures var s' := Do(route, s, a);
      && s'.pc == s.pc && s'.log == s.log && x in s'.writers
      && CanLand(s', s'.writers[x], t) && !Reaches(s'.writers[x], Home(route, t, x))
  {
    TargetsOfEntry(route, View(s, n), x);
    hide DualTargets, LogOk, Monotone, GoodPc;
    a := if x in s.writers then Retry(n, x) else StartWrite(n, x, Delete);
  }

  lemma ResumeRun(route: Router, s: State, t: Route) returns (run: seq<State>, steps: seq<Step>)
    requires Reachable(route, s) && Interrupted(s, t)
    ensures ReshardRun(route, run, steps, t.P) && run[0] == s && run[|steps|] == s.(pc := CreateNew(t.P, 0, true))
  {
    ReachableInv(route, s);
    BeginHeld(route, s, t);
    assert GoodCatalog(s.log[|s.log| - 1]);
    hide Reachable, Shape;
    var a := BeginReshard(t.P);
    run, steps := [s, Do(route, s, a)], [a];
  }

  lemma MissLast(route: Router, run: seq<State>, steps: seq<Step>, t: Route, x: Id)
    returns (run': seq<State>, steps': seq<Step>)
    requires ReshardRun(route, run, steps, t.P)
    requires var s := run[|steps|];
      && s.log != [] && s.pc.Scan? && PreCutover(Durable(s)) && Durable(s).rs.value.to == t
      && x in s.writers && CanLand(s, s.writers[x], t) && !Reaches(s.writers[x], Home(route, t, x))
    ensures ReshardRun(route, run', steps', t.P) && |run'| == |steps'| + 1 && run'[0] == run[0] && |steps'| > 0
    ensures var s := run'[|steps'| - 1]; s.log != [] && Misses(route, s, steps'[|steps'| - 1], x)
  {
    EndShape(route, run, steps, t.P);
    hide ReshardRun, Do, Enabled, Misses;
    var a := LandsNow(route, run[|steps|], x, t);
    run', steps' := Extend(route, run, steps, t.P, a);
  }

  lemma LaggingMisses(route: Router, run: seq<State>, steps: seq<Step>, t: Route, n: Node, k: nat, x: Id)
    returns (run': seq<State>, steps': seq<Step>)
    requires ReshardRun(route, run, steps, t.P)
    requires var s := run[|steps|];
      && s.log != [] && s.pc.Scan? && PreCutover(Durable(s)) && Durable(s).rs.value.to == t
      && n in s.at && s.at[n] <= k < |s.log| && !EntryCovered(route, s, k, x, t)
    ensures ReshardRun(route, run', steps', t.P) && |run'| == |steps'| + 1 && run'[0] == run[0] && |steps'| > 0
    ensures var s := run'[|steps'| - 1]; s.log != [] && Misses(route, s, steps'[|steps'| - 1], x)
  {
    run', steps' := Lag(route, run, steps, t.P, n, k);
    EndShape(route, run', steps', t.P);
    hide ReshardRun, Reachable, Shape, Misses, Reaches, Attempt;
    run', steps' := AskAndMiss(route, run', steps', t, n, x);
  }

  lemma AskAndMiss(route: Router, run: seq<State>, steps: seq<Step>, t: Route, n: Node, x: Id)
    returns (run': seq<State>, steps': seq<Step>)
    requires ReshardRun(route, run, steps, t.P)
    requires var s := run[|steps|];
      && s.log != [] && s.pc.Scan? && PreCutover(Durable(s)) && Durable(s).rs.value.to == t
      && n in s.at && s.at[n] < |s.log| && !EntryCovered(route, s, s.at[n], x, t)
    ensures ReshardRun(route, run', steps', t.P) && |run'| == |steps'| + 1 && run'[0] == run[0] && |steps'| > 0
    ensures var s := run'[|steps'| - 1]; s.log != [] && Misses(route, s, steps'[|steps'| - 1], x)
  {
    EndShape(route, run, steps, t.P);
    hide ReshardRun, Do, Enabled, Reachable, Shape, Misses, EntryCovered, CanLand, Reaches, Toward;
    var a := AsksLagging(route, run[|steps|], n, x, t);
    run', steps' := Extend(route, run, steps, t.P, a);
    run', steps' := MissLast(route, run', steps', t, x);
  }

  /** The resume, taken to its first scan with nobody else moving. */
  lemma AtScan(route: Router, s: State, t: Route) returns (run: seq<State>, steps: seq<Step>)
    requires Reachable(route, s) && Interrupted(s, t)
    ensures ReshardRun(route, run, steps, t.P) && |run| == |steps| + 1 && run[0] == s
    ensures var s' := run[|steps|];
      && s'.pc.Scan? && s'.log == s.log && s'.at == s.at && s'.writers == s.writers
      && forall ph :: ph in s.parts ==> ph in s'.parts
  {
    hide Reachable, Enabled, Do;
    run, steps := ResumeRun(route, s, t);
    run, steps := ToScan(route, run, steps, t.P);
  }

  lemma NotCoveredMisses(route: Router, s: State, t: Route) returns (run: seq<State>, steps: seq<Step>, x: Id)
    requires Reachable(route, s) && Interrupted(s, t) && !Covered(route, s, t)
    ensures ReshardRun(route, run, steps, t.P) && |run| == |steps| + 1 && run[0] == s && |steps| > 0
    ensures var s := run[|steps| - 1]; s.log != [] && Misses(route, s, steps[|steps| - 1], x)
  {
    run, steps := AtScan(route, s, t);
    hide ReshardRun, Reachable, Misses, Attempt, Reaches, Home;
    if y :| !InFlightCovered(route, s, y, t) {
      x := y;
      run, steps := MissLast(route, run, steps, t, x);
    } else {
      var n :| n in s.at && !NodeCovered(route, s, n, t);
      var k: nat, y :| s.at[n] <= k < |s.log| && !EntryCovered(route, s, k, y, t);
      x := y;
      run, steps := LaggingMisses(route, run, steps, t, n, k, x);
    }
  }

  /** Resuming an interrupted reshard at once is safe exactly if every write that can
      still land, in flight or told so by an entry a node may still route by, addresses
      the generation being built: then, and only then, no run of the resume has a write
      that misses it. */
  lemma ResumeSafeIff(route: Router, s: State, t: Route)
    requires Reachable(route, s) && Interrupted(s, t)
    ensures Covered(route, s, t) <==>
            forall run: seq<State>, steps, i, x :: ReshardRun(route, run, steps, t.P) && run[0] == s && 0 <= i < |steps| && run[i].log != [] ==>
              !Misses(route, run[i], steps[i], x)
  {
    if Covered(route, s, t) {
      forall run: seq<State>, steps, i, x | ReshardRun(route, run, steps, t.P) && run[0] == s && 0 <= i < |steps| && run[i].log != []
        ensures !Misses(route, run[i], steps[i], x)
      {
        CoveredSafe(route, run, steps, t, i, x);
      }
    } else {
      var run, steps, x := NotCoveredMisses(route, s, t);
      assert ReshardRun(route, run, steps, t.P) && Misses(route, run[|steps| - 1], steps[|steps| - 1], x);
    }
  }
}
