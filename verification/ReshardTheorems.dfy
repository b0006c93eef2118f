/** What the online reshard guarantees in every reachable state. */
module ReshardTheorems {
  import opened Store
  import opened ReshardMachine
  import opened ReshardInvariant
  import opened ReshardClients
  import opened ReshardCoordinator

  // ---------- the invariant holds in every run ----------

  lemma InitInv(route: Router, s: State)
    requires Init(route, s)
    ensures Inv(route, s)
  {
    forall x ensures LocalInv(LocalOf(route, s, x)) {
      assert Read(s.parts, Home(route, s.log[0].cur, x), x) == Acked(s, x);
    }
  }

  lemma StepKeeps(route: Router, s: State, a: Step)
    requires Inv(route, s) && Enabled(route, s, a)
    ensures Inv(route, Do(route, s, a))
  {
    hide Inv;
    match a
    case StartWrite(n, x, op) => AttemptKeeps(route, s, n, x, op, false);
    case LiveLeg(x) => LiveKeeps(route, s, x);
    case TargetLeg(x) => TargetKeeps(route, s, x);
    case Ack(x) => RetireKeeps(route, s, x, AckStep(s, x).acked);
    case Retry(n, x) => AttemptKeeps(route, s, n, x, s.writers[x].op, s.writers[x].landed);
    case GiveUp(x) => GiveUpKeeps(route, s, x);
    case NodeApply(n) => NodeKeeps(route, s, n);
    case BeginReshard(goal) => BeginKeeps(route, s, StartReshard(Durable(s), goal));
    case BeginAbort => BeginKeeps(route, s, StartAbort(Durable(s)));
    case BeginCleanup => BeginKeeps(route, s, Sweep(0, false, 0, 0, 0));
    case Coord(recs) => CoordKeeps(route, s, recs);
    case Crash => CrashKeeps(route, s);
  }

  lemma GiveUpKeeps(route: Router, s: State, x: Id)
    requires Inv(route, s) && x in s.writers && !s.writers[x].landed
    ensures Inv(route, s.(writers := s.writers - {x}))
  {
    hide Inv;
    NotDone(route, s, x);
    RetireKeeps(route, s, x, s.acked);
    assert s.(writers := s.writers - {x}) == s.(writers := s.writers - {x}, acked := s.acked);
  }

  lemma NotDone(route: Router, s: State, x: Id)
    requires Inv(route, s) && x in s.writers && !s.writers[x].landed
    ensures !WriteDone(s.writers[x])
  {
    assert LegInv(LocalOf(route, s, x));
  }

  lemma {:induction false} RunInv(route: Router, run: seq<State>, steps: seq<Step>, i: nat)
    requires IsRun(route, run, steps) && i < |run|
    ensures Inv(route, run[i])
  {
    hide Inv, Init;
    if i == 0 {
      InitInv(route, run[0]);
    } else {
      RunInv(route, run, steps, i - 1);
      assert Enabled(route, run[i - 1], steps[i - 1]);
      StepKeeps(route, run[i - 1], steps[i - 1]);
    }
  }

  lemma ReachableInv(route: Router, s: State)
    requires Reachable(route, s)
    ensures Inv(route, s)
  {
    hide Inv, Init, Enabled, Do;
    var run, steps :| IsRun(route, run, steps) && run[|run| - 1] == s;
    RunInv(route, run, steps, |run| - 1);
  }

  /** Reachability is closed under steps. */
  lemma ReachStep(route: Router, s: State, a: Step)
    requires Reachable(route, s) && Enabled(route, s, a)
    ensures Reachable(route, Do(route, s, a))
  {
    hide Init, Enabled, Do;
    var run, steps :| IsRun(route, run, steps) && run[|run| - 1] == s;
    var run', steps' := run + [Do(route, s, a)], steps + [a];
    assert IsRun(route, run', steps') by {
      forall i | 0 <= i < |steps'|
        ensures Enabled(route, run'[i], steps'[i]) && run'[i + 1] == Do(route, run'[i], steps'[i]) {
        if i < |steps| { assert Enabled(route, run[i], steps[i]); }
      }
    }
    assert run'[|run'| - 1] == Do(route, s, a);
  }

  // ---------- writes complete ----------

  /** A write whose first leg is done can take its second exactly if the partition is there
      or is of the lower of its two generations, the retiring one; taking it completes the
      write, and a missing partition stays missing. */
  lemma SecondLegIff(route: Router, s: State, x: Id)
    requires s.log != [] && x in s.writers && s.writers[x].leg == 1 && s.writers[x].target.Some?
    ensures var w := s.writers[x];
      var there := w.target.value in s.parts;
      && (Enabled(route, s, TargetLeg(x)) <==> there || w.target.value.gen < w.live.gen)
      && (Enabled(route, s, TargetLeg(x)) ==>
            var s' := Do(route, s, TargetLeg(x));
            && x in s'.writers && WriteDone(s'.writers[x]) && s'.parts.Keys == s.parts.Keys
            && (there ==> Read(s'.parts, w.target.value, x) == Effect(w.op))
            && (!there ==> s'.parts == s.parts))
  {
    hide Completed, Landed;
  }

  /** The first leg can be taken exactly if its partition is there, and lands there. */
  lemma FirstLegIff(route: Router, s: State, x: Id)
    requires s.log != [] && x in s.writers && s.writers[x].leg == 0
    ensures var w := s.writers[x];
      && (Enabled(route, s, LiveLeg(x)) <==> w.live in s.parts)
      && (w.live in s.parts ==>
            var s' := Do(route, s, LiveLeg(x));
            && x in s'.writers && (WriteDone(s'.writers[x]) <==> w.target.None?)
            && Read(s'.parts, w.live, x) == Effect(w.op))
  {
    hide Completed;
  }

  // ---------- agreement ----------

  /** While the new generation is being built, whatever it holds for an idle id is the
      old generation's current value, so nothing is clobbered and nothing resurrected,
      exactly if the id is not dirty.  Aside: the id between its insert and its guard. */
  lemma Agreement(route: Router, s: State, x: Id)
    requires Reachable(route, s) && s.log != [] && PreCutover(Durable(s))
    requires x !in s.writers && !MidCopy(s, x) && x !in s.h.stray
    ensures var r := Durable(s).rs.value;
            var held := Read(s.parts, Home(route, r.to, x), x);
            (held.Some? ==> held == Read(s.parts, Home(route, r.from, x), x)) <==> x !in s.h.dirty
  {
    ReachableInv(route, s);
    assert LocalInv(LocalOf(route, s, x));
    NotMid(route, s, x);
  }

  lemma NotMid(route: Router, s: State, x: Id)
    requires Inv(route, s) && !MidCopy(s, x) && x !in s.h.stray
    ensures !LocalOf(route, s, x).pos.Inserted? && !LocalOf(route, s, x).pos.Guarding?
  {
    MidIsPos(route, s, x);
  }

  // ---------- completeness ----------

  /** When the second pass is over, an idle id is in the same state in both generations
      exactly if it is neither dirty nor lost, whatever happened in the first pass. */
  lemma Completeness(route: Router, s: State, x: Id)
    requires Reachable(route, s) && s.pc.Flip?
    requires x !in s.writers && x !in s.h.stray
    ensures s.log != [] && PreCutover(Durable(s))
    ensures var r := Durable(s).rs.value;
            Read(s.parts, Home(route, r.to, x), x) == Read(s.parts, Home(route, r.from, x), x) <==>
            x !in s.h.dirty && x !in s.h.lost
  {
    ReachableInv(route, s);
    assert LocalInv(LocalOf(route, s, x));
  }

  // ---------- visibility ----------

  /** A node is served for an id if it routes where the catalog does or, after a flip
      it has not applied, to the retiring partition while that is still there. */
  predicate Served(route: Router, s: State, n: Node, x: Id)
    requires s.log != [] && n in s.at && s.at[n] < |s.log|
  {
    var d, c := Durable(s), View(s, n);
    c.cur == d.cur || (PostCutover(d) && c.cur == d.rs.value.from && Home(route, c.cur, x) in s.parts)
  }

  /** From before Phase 1 until long after the old partitions are gone, a node that is
      served, routing by its own view of the catalog, finds the partition and reads the
      last acknowledged write of an idle id exactly if the id is not marked wrong
      there. */
  lemma Visibility(route: Router, s: State, n: Node, x: Id)
    requires Reachable(route, s) && n in s.at
    requires x !in s.writers && x !in s.h.stray
    ensures s.log != [] && s.at[n] < |s.log|
    ensures Served(route, s, n, x) ==>
            && Home(route, View(s, n).cur, x) in s.parts
            && (Read(s.parts, Home(route, View(s, n).cur, x), x) == Acked(s, x) <==>
                x !in if View(s, n).cur == Durable(s).cur then s.h.wrong else s.h.wrongOld)
  {
    ReachableInv(route, s);
    RoutedHome(route, s, x);
    assert LocalInv(LocalOf(route, s, x));
    CutoverGens(s);
  }

  lemma RoutedHome(route: Router, s: State, x: Id)
    requires Shape(route, s)
    ensures Home(route, Durable(s).cur, x) in s.parts
  {
    assert GoodCatalog(s.log[|s.log| - 1]);
  }

  lemma CutoverGens(s: State)
    requires LogOk(s.log)
    ensures PostCutover(Durable(s)) ==> !PreCutover(Durable(s)) && Durable(s).rs.value.from.gen + 1 == Durable(s).cur.gen
    ensures PreCutover(Durable(s)) ==> Durable(s).rs.value.to.gen == Durable(s).cur.gen + 1
  {
    assert GoodCatalog(s.log[|s.log| - 1]);
  }

  // ---------- what the coordinator may touch ----------

  lemma ViewGen(s: State, n: Node)
    requires LogOk(s.log) && n in s.at && s.at[n] < |s.log|
    ensures View(s, n).cur.gen <= Durable(s).cur.gen
    ensures View(s, n).cur.gen == Durable(s).cur.gen ==> View(s, n).cur == Durable(s).cur
    ensures Durable(s).rs.Some? && View(s, n).cur.gen == Durable(s).rs.value.from.gen ==> View(s, n).cur == Durable(s).rs.value.from
  {
    assert Agree(s.log[s.at[n]], Durable(s));
  }

  /** No step of any operation, waited for or not, removes a partition of the
      generation the catalog routes to; and only a sweep can remove one that a node
      routes to, a node that has not applied the flip. */
  lemma DropSafety(route: Router, s: State, a: Step, ph: Phys, n: Node)
    requires Reachable(route, s) && Enabled(route, s, a)
    requires ph in s.parts && ph !in Do(route, s, a).parts
    requires n in s.at
    ensures s.log != [] && s.at[n] < |s.log|
    ensures ph.gen != Durable(s).cur.gen && Do(route, s, a).log == s.log
    ensures ph.gen == View(s, n).cur.gen ==> s.pc.Sweep? && View(s, n).cur.gen < Durable(s).cur.gen
  {
    hide Enabled, Do, LocalInv;
    ReachableInv(route, s);
    OnlyDropsRemove(route, s, a, ph);
    ViewGen(s, n);
    VictimUnrouted(route, s, n);
  }

  lemma OnlyDropsRemove(route: Router, s: State, a: Step, ph: Phys)
    requires Enabled(route, s, a) && ph in s.parts && ph !in Do(route, s, a).parts
    ensures a.Coord? && s.log != [] && Victim(s) == Some(ph) && Do(route, s, a).log == s.log
  {
    hide LiveStep, TargetStep, CoordStep, CoordEnabled, CrashStep;
    match a
    case LiveLeg(x) => assert false by { LiveKeys(route, s, x); }
    case TargetLeg(x) => assert false by { TargetKeys(route, s, x); }
    case Coord(recs) => CoordRemoves(route, s, recs, ph);
    case Crash => assert false by { CrashParts(route, s); }
    case _ =>
  }

  lemma LiveKeys(route: Router, s: State, x: Id)
    requires s.log != [] && LiveEnabled(s, x)
    ensures LiveStep(route, s, x).parts.Keys == s.parts.Keys
  {
  }

  lemma TargetKeys(route: Router, s: State, x: Id)
    requires s.log != [] && TargetEnabled(s, x)
    ensures TargetStep(route, s, x).parts.Keys == s.parts.Keys
  {
  }

  lemma CrashParts(route: Router, s: State)
    requires s.log != []
    ensures CrashStep(route, s).parts == s.parts
  {
  }

  lemma CoordRemoves(route: Router, s: State, recs: seq<(Id, Record)>, ph: Phys)
    requires s.log != [] && CoordEnabled(route, s, recs)
    requires ph in s.parts && ph !in CoordStep(route, s, recs).parts
    ensures Victim(s) == Some(ph) && CoordStep(route, s, recs).log == s.log
  {
    hide CopyParts;
    if s.pc.Copy? && s.pc.i < |s.pc.recs| { assert false by { CopyKeys(route, s); } }
  }

  lemma CopyKeys(route: Router, s: State)
    requires s.log != [] && s.pc.Copy? && s.pc.i < |s.pc.recs| && CoordEnabled(route, s, [])
    ensures CoordStep(route, s, []).parts.Keys == s.parts.Keys
  {
  }

  lemma VictimUnrouted(route: Router, s: State, n: Node)
    requires Shape(route, s) && Victim(s).Some? && n in s.at
    ensures Victim(s).value.gen != Durable(s).cur.gen
    ensures !s.pc.Sweep? ==> Victim(s).value.gen != View(s, n).cur.gen
  {
    ViewGen(s, n);
    hide LogOk, Monotone;
  }

  /** No coordinator step changes what a node reads for an id, except that dropping the
      very partition it routes to takes away what it held.  Copying writes only to the
      generation being built. */
  lemma Transparency(route: Router, s: State, recs: seq<(Id, Record)>, n: Node, x: Id)
    requires Reachable(route, s) && s.log != [] && CoordEnabled(route, s, recs) && n in s.at
    ensures s.at[n] < |s.log|
    ensures var s', ph := CoordStep(route, s, recs), Home(route, View(s, n).cur, x);
            && s.at[n] < |s'.log| && View(s', n) == View(s, n)
            && (Read(s'.parts, ph, x) != Read(s.parts, ph, x) <==> Victim(s) == Some(ph) && Read(s.parts, ph, x).Some?)
  {
    hide LocalInv, CopyParts;
    ReachableInv(route, s);
    ViewGen(s, n);
    CutoverGens(s);
    hide LogOk, Monotone;
    var ph := Home(route, View(s, n).cur, x);
    if Victim(s).Some? {
      DropReads(route, s, recs);
    } else if s.pc.Copy? && s.pc.i < |s.pc.recs| {
      CopyReads(route, s, ph, x);
    } else {
      OtherReads(route, s, recs, ph, x);
    }
  }

  lemma DropReads(route: Router, s: State, recs: seq<(Id, Record)>)
    requires s.log != [] && CoordEnabled(route, s, recs) && Victim(s).Some?
    ensures var s' := CoordStep(route, s, recs);
            s'.log == s.log && s'.at == s.at && s'.parts == s.parts - {Victim(s).value}
  {
    hide CopyParts, CopyHistory, FlipHistory;
  }

  lemma CopyReads(route: Router, s: State, ph: Phys, x: Id)
    requires Shape(route, s) && s.pc.Copy? && s.pc.i < |s.pc.recs| && CoordEnabled(route, s, [])
    requires ph.gen <= Durable(s).cur.gen
    ensures CoordStep(route, s, []).log == s.log && CoordStep(route, s, []).at == s.at
    ensures Read(CoordStep(route, s, []).parts, ph, x) == Read(s.parts, ph, x)
  {
    CutoverGens(s);
    hide LogOk, Monotone, CopyHistory, FlipHistory;
  }

  lemma OtherReads(route: Router, s: State, recs: seq<(Id, Record)>, ph: Phys, x: Id)
    requires s.log != [] && CoordEnabled(route, s, recs) && Victim(s).None?
    requires !(s.pc.Copy? && s.pc.i < |s.pc.recs|)
    ensures var s' := CoordStep(route, s, recs);
            && s.log <= s'.log && s'.at == s.at && Read(s'.parts, ph, x) == Read(s.parts, ph, x)
  {
    hide CopyParts, CopyHistory, FlipHistory;
  }

  /** A fresh reshard turns on dual writes only once every partition of the new
      generation exists, whatever orphans it found; and nothing is in it but what
      writes addressed to an aborted generation left there since it was created. */
  lemma FreshStart(route: Router, s: State, p: nat)
    requires Reachable(route, s) && s.pc.SetState? && p < s.pc.goal
    ensures s.log != []
    ensures var ph := Phys(Durable(s).cur.gen + 1, p);
            ph in s.parts && forall x :: x in s.parts[ph] ==> x in s.h.late
  {
    ReachableInv(route, s);
    assert OnlyLate(s.parts, Durable(s).cur.gen + 1, s.pc.goal, s.h.late);
  }
}
