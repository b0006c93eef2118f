/** What the reshard protocol guarantees without speaking of marks: an id that no step
    harms reads right, everywhere and always. */
module ReshardClean {
  import opened Store
  import opened ReshardMachine
  import opened ReshardInvariant
  import opened ReshardClients
  import opened ReshardTheorems
  import opened ReshardRecovery
  import opened ReshardHaste

  /** The write addresses every generation that matters. */
  predicate Full(route: Router, d: Catalog, x: Id, w: Writer)
  {
    && Reaches(w, Home(route, d.cur, x))
    && (d.rs.Some? ==> Reaches(w, Home(route, d.rs.value.from, x)) && Reaches(w, Home(route, d.rs.value.to, x)))
  }

  /** `ph` belongs to a generation the catalog does not know yet, or does not own `x`. */
  predicate Foreign(route: Router, s: State, ph: Phys, x: Id)
    requires s.log != []
  {
    (Durable(s).rs.None? && ph.gen == Durable(s).cur.gen + 1) || StrayAt(route, s, ph, x)
  }

  /** The step does `x` no harm: it is not a crash on its copy or the guard race, and not
      a leg of a write of `x` that leaves a generation out or lands where it should not. */
  predicate CleanFor(route: Router, s: State, a: Step, x: Id)
    requires s.log != []
  {
    && !HarmsCopy(route, s, a, x)
    && ((a == LiveLeg(x) || a == TargetLeg(x)) && x in s.writers ==>
          Full(route, Durable(s), x, s.writers[x]))
    && (a == TargetLeg(x) && x in s.writers && s.writers[x].target.Some? ==>
          !Foreign(route, s, s.writers[x].target.value, x))
  }

  predicate Unmarked(h: History, x: Id)
  {
    x !in h.dirty && x !in h.stale && x !in h.lost && x !in h.wrong && x !in h.wrongOld && x !in h.late && x !in h.stray
  }

  // ---------- one step ----------

  /** A full write marks nothing when it completes. */
  lemma FullUnmarked(route: Router, d: Catalog, parts: Partitions, pc: Pc, x: Id, w: Writer, h: History)
    requires Full(route, d, x, w) && Unmarked(h, x)
    ensures Unmarked(Completed(route, d, parts, pc, x, w, h), x)
  {
    hide PosOf;
  }

  lemma LegClean(route: Router, s: State, a: Step, x: Id)
    requires s.log != [] && Enabled(route, s, a) && (a.LiveLeg? || a.TargetLeg?)
    requires Unmarked(s.h, x) && CleanFor(route, s, a, x)
    ensures Unmarked(Do(route, s, a).h, x)
  {
    var y := a.x;
    var w, s' := s.writers[y], Do(route, s, a);
    var h := if a.TargetLeg? && w.target.value in s.parts then Landed(route, s, w.target.value, y, w.op) else s.h;
    assert Unmarked(h, x);
    hide Completed;
    if y == x {
      FullUnmarked(route, Durable(s), s'.parts, s.pc, x, w, h);
    } else {
      CompletedOthers(route, Durable(s), s'.parts, s.pc, y, w, h);
    }
  }

  lemma CoordClean(route: Router, s: State, recs: seq<(Id, Record)>, x: Id)
    requires s.log != [] && CoordEnabled(route, s, recs) && Unmarked(s.h, x) && CleanFor(route, s, Coord(recs), x)
    ensures Unmarked(CoordHistory(route, s), x)
  {
  }

  lemma CrashClean(route: Router, s: State, x: Id)
    requires Shape(route, s) && Unmarked(s.h, x) && CleanFor(route, s, Crash, x)
    ensures Unmarked(CrashStep(route, s).h, x)
  {
    CrashHarm(route, s, x);
    hide Shape;
  }

  lemma StepClean(route: Router, s: State, a: Step, x: Id)
    requires Shape(route, s) && Enabled(route, s, a) && Unmarked(s.h, x) && CleanFor(route, s, a, x)
    ensures Unmarked(Do(route, s, a).h, x)
  {
    hide Shape, CleanFor, Unmarked;
    if a.LiveLeg? || a.TargetLeg? {
      LegClean(route, s, a, x);
    } else if a.Coord? {
      CoordClean(route, s, a.recs, x);
    } else if a.Crash? {
      CrashClean(route, s, x);
    } else {
      assert Do(route, s, a).h == s.h;
    }
  }

  // ---------- whole runs ----------

  /** Every step of the run does `x` no harm. */
  ghost predicate CleanSteps(route: Router, run: seq<State>, steps: seq<Step>, x: Id)
    requires |run| == |steps| + 1
  {
    forall k :: 0 <= k < |steps| ==> run[k].log != [] && CleanFor(route, run[k], steps[k], x)
  }

  /** Then `x` is never marked. */
  lemma {:induction false} CleanUnmarked(route: Router, run: seq<State>, steps: seq<Step>, x: Id, i: nat)
    requires IsRun(route, run, steps) && CleanSteps(route, run, steps, x) && i < |run|
    ensures Unmarked(run[i].h, x) && Reachable(route, run[i])
  {
    hide Enabled, Do, CleanFor, Unmarked, Reachable;
    PrefixReach(route, run, steps, i);
    if i == 0 {
      StartUnmarked(route, run[0], x);
    } else {
      CleanUnmarked(route, run, steps, x, i - 1);
      ReachableInv(route, run[i - 1]);
      StepClean(route, run[i - 1], steps[i - 1], x);
    }
  }

  lemma StartUnmarked(route: Router, s: State, x: Id)
    requires Init(route, s)
    ensures Unmarked(s.h, x)
  {
  }

  /** In every state of every run that does `x` no harm and whose finalizes and clean-ups
      wait, every node, routing by its own view of the catalog, finds the partition of
      `x`, and reads its last acknowledged write when no write of it is in flight. */
  lemma CleanReads(route: Router, run: seq<State>, steps: seq<Step>, x: Id, i: nat, n: Node)
    requires IsRun(route, run, steps) && CleanSteps(route, run, steps, x) && Patient(run, steps)
    requires i < |run| && n in run[i].at && x !in run[i].writers
    ensures var s := run[i];
      && s.log != [] && s.at[n] < |s.log| && Home(route, View(s, n).cur, x) in s.parts
      && Read(s.parts, Home(route, View(s, n).cur, x), x) == Acked(s, x)
  {
    hide Reachable, Served, CleanSteps, IsRun, Patient;
    CleanUnmarked(route, run, steps, x, i);
    PatientServes(route, run, steps, i, n, x);
    Visibility(route, run[i], n, x);
  }

  /** Without the patience: every node that routes where the catalog does. */
  lemma CleanRoutedReads(route: Router, run: seq<State>, steps: seq<Step>, x: Id, i: nat, n: Node)
    requires IsRun(route, run, steps) && CleanSteps(route, run, steps, x)
    requires i < |run| && n in run[i].at && x !in run[i].writers
    ensures var s := run[i];
      && s.log != [] && s.at[n] < |s.log|
      && (View(s, n).cur == Durable(s).cur ==> Read(s.parts, Home(route, View(s, n).cur, x), x) == Acked(s, x))
  {
    hide Reachable, CleanSteps, IsRun;
    CleanUnmarked(route, run, steps, x, i);
    Visibility(route, run[i], n, x);
  }

  /** While the new generation is being built, whatever it holds for such an id is the
      old generation's current value. */
  lemma CleanAgreement(route: Router, run: seq<State>, steps: seq<Step>, x: Id, i: nat)
    requires IsRun(route, run, steps) && CleanSteps(route, run, steps, x) && i < |run|
    requires run[i].log != [] && PreCutover(Durable(run[i])) && x !in run[i].writers && !MidCopy(run[i], x)
    ensures var s := run[i];
      var held := Read(s.parts, Home(route, Durable(s).rs.value.to, x), x);
      held.Some? ==> held == Read(s.parts, Home(route, Durable(s).rs.value.from, x), x)
  {
    hide Reachable, CleanSteps, IsRun;
    CleanUnmarked(route, run, steps, x, i);
    Agreement(route, run[i], x);
  }

  /** And when the second pass is over both generations hold the same for it. */
  lemma CleanCompleteness(route: Router, run: seq<State>, steps: seq<Step>, x: Id, i: nat)
    requires IsRun(route, run, steps) && CleanSteps(route, run, steps, x) && i < |run|
    requires run[i].pc.Flip? && x !in run[i].writers
    ensures var s := run[i];
      && s.log != [] && PreCutover(Durable(s))
      && Read(s.parts, Home(route, Durable(s).rs.value.to, x), x) == Read(s.parts, Home(route, Durable(s).rs.value.from, x), x)
  {
    hide Reachable, CleanSteps, IsRun;
    CleanUnmarked(route, run, steps, x, i);
    Completeness(route, run[i], x);
  }

  // ---------- recovery ----------

  /** A run and what follows it. */
  lemma Joined(route: Router, pre: seq<State>, preSteps: seq<Step>, run: seq<State>, steps: seq<Step>, x: Id)
    requires IsRun(route, pre, preSteps) && CleanSteps(route, pre, preSteps, x)
    requires IsPath(route, run, steps) && CleanSteps(route, run, steps, x) && run[0] == pre[|preSteps|]
    ensures IsRun(route, pre + run[1..], preSteps + steps) && CleanSteps(route, pre + run[1..], preSteps + steps, x)
    ensures (pre + run[1..])[|preSteps| + |steps|] == run[|steps|]
  {
    hide Enabled, Do, CleanFor, Init;
    var all, allSteps := pre + run[1..], preSteps + steps;
    forall k | 0 <= k < |allSteps|
      ensures Enabled(route, all[k], allSteps[k]) && all[k + 1] == Do(route, all[k], allSteps[k])
      ensures all[k].log != [] && CleanFor(route, all[k], allSteps[k], x)
    {
      if k < |preSteps| {
        assert all[k] == pre[k] && all[k + 1] == pre[k + 1];
      } else {
        var j := k - |preSteps|;
        assert all[k] == run[j] && all[k + 1] == run[j + 1];
      }
    }
  }

  /** However the collection got where it is, with crashes, aborts and resumes: after an
      uninterrupted reshard that has come to its end it is stable with the requested
      partition count, and every node on the new generation reads the last acknowledged
      write of every idle id that no step has harmed. */
  lemma RecoveredReads(route: Router, pre: seq<State>, preSteps: seq<Step>, run: seq<State>, steps: seq<Step>,
                       goal: nat, n: Node, x: Id)
    requires IsRun(route, pre, preSteps) && CleanSteps(route, pre, preSteps, x)
    requires ReshardRun(route, run, steps, goal) && CleanSteps(route, run, steps, x) && run[0] == pre[|preSteps|]
    requires run[|steps|].pc.Idle? && x !in run[|steps|].writers && n in run[|steps|].at
    ensures var s := run[|steps|];
      && s.log != [] && Durable(s).rs.None? && Durable(s).cur.P == goal && s.at[n] < |s.log|
      && (View(s, n).cur == Durable(s).cur ==> Read(s.parts, Home(route, View(s, n).cur, x), x) == Acked(s, x))
  {
    EveryRunEndsStable(route, run, steps, goal);
    Joined(route, pre, preSteps, run, steps, x);
    hide IsRun, CleanSteps, ReshardRun;
    CleanRoutedReads(route, pre + run[1..], preSteps + steps, x, |preSteps| + |steps|, n);
  }
}
