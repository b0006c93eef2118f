/** The protocol waits twice: for the drain grace after dual writes are turned on, and
    at the cutover gate.  A finalize, a clean-up, a resume and a fresh begin go ahead at
    once.  This module says exactly what that costs. */
module ReshardHaste {
  import opened Store
  import opened ReshardMachine
  import opened ReshardInvariant
  import opened ReshardClients
  import opened ReshardTheorems
  import opened ReshardRecovery

  // ---------- finalize and clean-up ----------

  /** Clearing the state, or sweeping the retired partition, under a node that has not
      applied the flip. */
  predicate Strands(route: Router, s: State, a: Step, n: Node, x: Id)
    requires s.log != [] && n in s.at && s.at[n] < |s.log|
  {
    && a.Coord? && View(s, n).cur != Durable(s).cur
    && (s.pc.FinClear? || (s.pc.Sweep? && Victim(s) == Some(Home(route, View(s, n).cur, x))))
  }

  lemma ClientServed(route: Router, s: State, a: Step, n: Node, x: Id)
    requires s.log != [] && Enabled(route, s, a) && IsOther(a) && !a.NodeApply? && n in s.at && s.at[n] < |s.log|
    ensures var s' := Do(route, s, a); s'.at == s.at && s'.log == s.log && (Served(route, s', n, x) <==> Served(route, s, n, x))
  {
    hide Completed, Landed, PosOf;
    var s' := Do(route, s, a);
    assert s'.parts.Keys == s.parts.Keys;
    assert forall ph :: ph in s'.parts <==> ph in s.parts;
  }

  lemma NodeServed(route: Router, s: State, m: Node, n: Node, x: Id)
    requires Shape(route, s) && m in s.at && s.at[m] + 1 < |s.log| && n in s.at && Served(route, s, n, x)
    ensures Served(route, s.(at := s.at[m := s.at[m] + 1]), n, x)
  {
    var s' := s.(at := s.at[m := s.at[m] + 1]);
    if n == m {
      var k := s.at[n] + 1;
      assert s.log[s.at[n]].cur.gen <= s.log[k].cur.gen;
      ViewGen(s', n);
      CutoverGens(s);
    }
  }

  lemma QuietCoordServed(route: Router, s: State, recs: seq<(Id, Record)>, n: Node, x: Id)
    requires Shape(route, s) && CoordEnabled(route, s, recs) && n in s.at && Served(route, s, n, x)
    requires Victim(s).None? && CoordLog(s) == s.log
    ensures var s' := CoordStep(route, s, recs); s'.at == s.at && s'.log == s.log && Served(route, s', n, x)
  {
    hide CoordHistory, CoordPc, LogOk, Monotone, CopyParts;
    var s' := CoordStep(route, s, recs);
    if s.pc.Copy? && s.pc.i < |s.pc.recs| { CopyKeys(route, s); }
  }

  lemma VictimServed(route: Router, s: State, n: Node, x: Id)
    requires Shape(route, s) && CoordEnabled(route, s, []) && n in s.at && Served(route, s, n, x) && Victim(s).Some?
    ensures var s' := CoordStep(route, s, []);
      && s'.at == s.at && s'.log == s.log
      && (!Served(route, s', n, x) <==> Strands(route, s, Coord([]), n, x))
  {
    DropReads(route, s, []);
    VictimUnrouted(route, s, n);
    CutoverGens(s);
    ViewGen(s, n);
    hide LogOk, Monotone, CoordStep, CoordEnabled;
  }

  lemma LogServed(route: Router, s: State, n: Node, x: Id)
    requires Shape(route, s) && CoordEnabled(route, s, []) && n in s.at && Served(route, s, n, x) && CoordLog(s) != s.log
    ensures var s' := CoordStep(route, s, []);
      && s'.at == s.at && s.log < s'.log
      && (!Served(route, s', n, x) <==> Strands(route, s, Coord([]), n, x))
  {
    RoutedHome(route, s, x);
    CutoverGens(s);
    assert GoodCatalog(s.log[|s.log| - 1]);
    hide CoordHistory, CoordPc, LogOk, Monotone;
  }

  /** A served node stops being served for an id exactly if a finalize or clean-up goes
      ahead before the node has applied the flip. */
  lemma ServedLostIff(route: Router, s: State, a: Step, n: Node, x: Id)
    requires Reachable(route, s) && Enabled(route, s, a) && n in s.at
    ensures var s' := Do(route, s, a);
      && s.log != [] && s'.log != [] && s.at[n] < |s.log| && n in s'.at && s'.at[n] < |s'.log|
      && (Served(route, s, n, x) ==> (!Served(route, s', n, x) <==> Strands(route, s, a, n, x)))
  {
    Bounds(route, s, n);
    ReachStep(route, s, a);
    AtStays(route, s, a);
    Bounds(route, Do(route, s, a), n);
    if Served(route, s, n, x) {
      hide Do, Enabled, Served, Strands, Reachable, Shape;
      if a.NodeApply? {
        ApplyServed(route, s, a, n, x);
      } else if a.Coord? {
        CoordEnabledBy(route, s, a);
        CoordServed(route, s, a.recs, n, x);
      } else if IsOther(a) {
        ClientServed(route, s, a, n, x);
        OnlyCoordStrands(route, s, a, n, x);
      } else {
        BeginServed(route, s, a, n, x);
        OnlyCoordStrands(route, s, a, n, x);
      }
    }
  }

  lemma Bounds(route: Router, s: State, n: Node)
    requires Reachable(route, s) && n in s.at
    ensures Shape(route, s) && s.log != [] && s.at[n] < |s.log|
  {
    ReachableInv(route, s);
  }

  lemma OnlyCoordStrands(route: Router, s: State, a: Step, n: Node, x: Id)
    requires s.log != [] && n in s.at && s.at[n] < |s.log| && !a.Coord?
    ensures !Strands(route, s, a, n, x)
  {
  }

  lemma ApplyServed(route: Router, s: State, a: Step, n: Node, x: Id)
    requires Shape(route, s) && Enabled(route, s, a) && a.NodeApply? && n in s.at && Served(route, s, n, x)
    ensures var s' := Do(route, s, a);
      s'.log != [] && n in s'.at && s'.at[n] < |s'.log| && Served(route, s', n, x) && !Strands(route, s, a, n, x)
  {
    hide LogOk, Monotone, GoodPc, Served;
    NodeServed(route, s, a.n, n, x);
  }

  /** Beginning an operation, or crashing, moves no partition. */
  lemma BeginServed(route: Router, s: State, a: Step, n: Node, x: Id)
    requires s.log != [] && Enabled(route, s, a) && !IsOther(a) && !a.Coord? && n in s.at && s.at[n] < |s.log|
    ensures var s' := Do(route, s, a); s'.at == s.at && s'.log == s.log && (Served(route, s', n, x) <==> Served(route, s, n, x))
  {
    hide StartReshard, StartAbort;
  }

  lemma AtStays(route: Router, s: State, a: Step)
    requires Enabled(route, s, a)
    ensures Do(route, s, a).at.Keys == s.at.Keys
  {
    hide CoordParts, CoordPc, CoordHistory, CoordLog, Completed, Landed, CoordEnabled;
  }

  lemma CoordServed(route: Router, s: State, recs: seq<(Id, Record)>, n: Node, x: Id)
    requires Shape(route, s) && CoordEnabled(route, s, recs) && n in s.at && Served(route, s, n, x)
    ensures var s' := CoordStep(route, s, recs);
      && s'.log != [] && n in s'.at && s'.at[n] < |s'.log|
      && (!Served(route, s', n, x) <==> Strands(route, s, Coord(recs), n, x))
  {
    RecsOnlyScan(route, s, recs);
    hide LogOk, Monotone, CoordEnabled, CoordStep, Served;
    if Victim(s).Some? {
      VictimServed(route, s, n, x);
    } else if CoordLog(s) == s.log {
      QuietCoordServed(route, s, recs, n, x);
      FinClearLogs(s);
    } else {
      LogServed(route, s, n, x);
    }
  }

  lemma FinClearLogs(s: State)
    requires s.log != [] && (s.pc.Flip? ==> Durable(s).rs.Some?)
    ensures s.pc.FinClear? ==> CoordLog(s) != s.log
  {
    assert s.pc.FinClear? ==> |CoordLog(s)| == |s.log| + 1;
  }

  /** What a scan would return matters only to a scan. */
  lemma RecsOnlyScan(route: Router, s: State, recs: seq<(Id, Record)>)
    requires s.log != [] && CoordEnabled(route, s, recs)
    ensures Victim(s).Some? || CoordLog(s) != s.log ==>
            CoordEnabled(route, s, []) && CoordStep(route, s, recs) == CoordStep(route, s, [])
  {
    hide CoordParts, CoordHistory;
  }

  /** A run in which every finalize and clean-up waits until all nodes route as the
      catalog does. */
  ghost predicate Patient(run: seq<State>, steps: seq<Step>)
    requires |run| == |steps| + 1
  {
    forall k :: 0 <= k < |steps| && steps[k].Coord? && (run[k].pc.FinClear? || run[k].pc.Sweep?) ==>
      run[k].log != [] && AllOn(run[k])
  }

  /** In such a run every node is served for every id, always. */
  lemma {:induction false} PatientServes(route: Router, run: seq<State>, steps: seq<Step>, i: nat, n: Node, x: Id)
    requires IsRun(route, run, steps) && Patient(run, steps) && i < |run| && n in run[i].at
    ensures run[i].log != [] && run[i].at[n] < |run[i].log| && Served(route, run[i], n, x)
  {
    hide Enabled, Do, Served;
    if i == 0 {
      StartServed(route, run[0], n, x);
    } else {
      var s, a := run[i - 1], steps[i - 1];
      PrefixReach(route, run, steps, i - 1);
      AtStays(route, s, a);
      PatientServes(route, run, steps, i - 1, n, x);
      ServedLostIff(route, s, a, n, x);
    }
  }

  lemma StartServed(route: Router, s: State, n: Node, x: Id)
    requires Init(route, s) && n in s.at
    ensures s.log != [] && s.at[n] < |s.log| && Served(route, s, n, x)
  {
  }

  lemma PrefixReach(route: Router, run: seq<State>, steps: seq<Step>, i: nat)
    requires IsRun(route, run, steps) && i < |run|
    ensures Reachable(route, run[i])
  {
    hide Enabled, Do, Init;
    var run', steps' := run[..i + 1], steps[..i];
    assert IsRun(route, run', steps');
    assert run'[|run'| - 1] == run[i];
  }

  // ---------- resume ----------

  function Harmed(h: History): (ids: set<Id>) { h.dirty + h.stale + h.lost }

  /** What harms a copy apart from writes that miss it: dying between the copy of a
      deleted id and its guard, and guard-deleting an id that is back. */
  predicate HarmsCopy(route: Router, s: State, a: Step, x: Id)
    requires s.log != []
  {
    Durable(s).rs.Some? &&
    var from, to := Home(route, Durable(s).rs.value.from, x), Home(route, Durable(s).rs.value.to, x);
    || (a.Crash? && MidCopy(s, x) && Read(s.parts, from, x).None? && Read(s.parts, to, x).Some?)
    || (a.Coord? && MidCopy(s, x) && s.pc.sub == Guard && Read(s.parts, from, x).Some?)
  }

  /** The last leg of a write that does not reach the generation being built. */
  predicate Misses(route: Router, s: State, a: Step, x: Id)
    requires s.log != []
  {
    && (a == LiveLeg(x) || a == TargetLeg(x)) && x in s.writers
    && PreCutover(Durable(s)) && !Reaches(s.writers[x], Home(route, Durable(s).rs.value.to, x))
  }

  lemma LegHarm(route: Router, s: State, a: Step, x: Id)
    requires s.log != [] && Enabled(route, s, a) && (a.LiveLeg? || a.TargetLeg?) && x !in Harmed(s.h)
    ensures x in Harmed(Do(route, s, a).h) ==> Misses(route, s, a, x)
  {
    hide PosOf;
    var y := a.x;
    var w, s' := s.writers[y], Do(route, s, a);
    CompletedOthers(route, Durable(s), s'.parts, s.pc, y, w, s.h);
    if a.TargetLeg? {
      LandedGrows(route, s, w.target.value, y, w.op);
      CompletedOthers(route, Durable(s), s'.parts, s.pc, y, w, Landed(route, s, w.target.value, y, w.op));
    }
  }

  lemma CoordHarm(route: Router, s: State, recs: seq<(Id, Record)>, x: Id)
    requires s.log != [] && CoordEnabled(route, s, recs) && !s.pc.SetState? && x !in Harmed(s.h)
    ensures x in Harmed(CoordHistory(route, s)) <==> HarmsCopy(route, s, Coord(recs), x)
  {
  }

  lemma CrashHarm(route: Router, s: State, x: Id)
    requires Shape(route, s) && x !in Harmed(s.h)
    ensures x in Harmed(CrashStep(route, s).h) <==> HarmsCopy(route, s, Crash, x)
  {
    hide LogOk, Monotone;
  }

  /** Nothing else harms a copy: a newly harmed id was missed by a write, left behind by
      a late one when dual writes were turned on, or harmed by the copy itself. */
  lemma HarmCause(route: Router, s: State, a: Step, x: Id)
    requires Reachable(route, s) && Enabled(route, s, a) && x !in Harmed(s.h)
    ensures s.log != []
    ensures x in Harmed(Do(route, s, a).h) ==>
            HarmsCopy(route, s, a, x) || Misses(route, s, a, x) || (a.Coord? && s.pc.SetState? && x in s.h.late)
  {
    ReachableInv(route, s);
    hide Inv, Reachable, HarmsCopy, Misses;
    if a.LiveLeg? || a.TargetLeg? {
      LegHarm(route, s, a, x);
    } else if a.Coord? {
      if !s.pc.SetState? { CoordHarm(route, s, a.recs, x); }
    } else if a.Crash? {
      CrashHarm(route, s, x);
    } else {
      assert Do(route, s, a).h == s.h;
    }
  }

  /** Once every node has applied Phase 1 and every write in flight addresses both
      generations, that stays so until the catalog changes. */
  lemma GraceLasts(route: Router, s: State, a: Step)
    requires s.log != [] && GoodCatalog(Durable(s)) && PreCutover(Durable(s)) && Drained(route, s)
    requires Enabled(route, s, a) && Do(route, s, a).log == s.log
    ensures Drained(route, Do(route, s, a))
  {
    hide Do, Enabled;
    var s' := Do(route, s, a);
    CaughtLasts(route, s, a);
    forall x | x in s'.writers
      ensures && s'.writers[x].live == Home(route, Durable(s).rs.value.from, x)
              && s'.writers[x].target == Some(Home(route, Durable(s).rs.value.to, x))
    {
      WritersFrom(route, s, a, x);
      AttemptBoth(route, Durable(s), x, s'.writers[x].op, s'.writers[x].landed);
    }
  }

  lemma CaughtLasts(route: Router, s: State, a: Step)
    requires s.log != [] && AllCaught(s) && Enabled(route, s, a) && Do(route, s, a).log == s.log
    ensures AllCaught(Do(route, s, a))
  {
    hide Completed, Landed, CoordParts, CoordPc, CoordHistory, CoordEnabled, CoordLog;
  }

  /** A write in flight after a step was in flight before, with the same targets, or has
      just resolved them from the catalog. */
  lemma WritersFrom(route: Router, s: State, a: Step, x: Id)
    requires s.log != [] && AllCaught(s) && Enabled(route, s, a) && x in Do(route, s, a).writers
    ensures var w' := Do(route, s, a).writers[x];
      || (x in s.writers && w'.live == s.writers[x].live && w'.target == s.writers[x].target)
      || (Partitioned(Durable(s)) && w' == Attempt(route, Durable(s), x, w'.op, w'.landed))
  {
    hide Completed, Landed, CoordParts, CoordPc, CoordHistory, CoordEnabled, CoordLog;
  }

  lemma AttemptBoth(route: Router, d: Catalog, x: Id, op: Op, landed: bool)
    requires GoodCatalog(d) && PreCutover(d)
    ensures var w := Attempt(route, d, x, op, landed);
            w.live == Home(route, d.rs.value.from, x) && w.target == Some(Home(route, d.rs.value.to, x))
  {
    TargetsOfEntry(route, d, x);
  }

  /** A fresh reshard scans its first partition in such a state. */
  lemma FirstScanDrained(route: Router, s: State, recs: seq<(Id, Record)>)
    requires s.log != [] && s.pc.Grace? && CoordEnabled(route, s, recs) && Durable(s).rs.Some?
    ensures var s' := CoordStep(route, s, recs); s'.pc == Scan(s.pc.goal, 0, 0) && s'.log == s.log && Drained(route, s')
  {}

  /** While that is so, a copy that was right is harmed exactly by a crash on it or by
      the guard race.  A resume that does not wait for it has no such guarantee. */
  lemma DrainedHarmIff(route: Router, s: State, a: Step, x: Id)
    requires Reachable(route, s) && s.log != [] && PreCutover(Durable(s)) && Drained(route, s)
    requires Enabled(route, s, a) && x !in Harmed(s.h)
    ensures x in Harmed(Do(route, s, a).h) <==> HarmsCopy(route, s, a, x)
  {
    ReachableInv(route, s);
    assert !s.pc.SetState?;
    hide Inv, Reachable;
    if a.LiveLeg? || a.TargetLeg? {
      LegHarm(route, s, a, x);
    } else if a.Coord? {
      CoordHarm(route, s, a.recs, x);
    } else if a.Crash? {
      CrashHarm(route, s, x);
    } else {
      assert Do(route, s, a).h == s.h;
    }
  }
}
