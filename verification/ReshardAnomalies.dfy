/** Six runs in which an acknowledged write is lost, or a deleted point comes back.
    They show that the ids `Agreement`, `Completeness` and `Visibility` mark are harmed
    by the protocol as it is: three runs need only unlucky timing, three need an
    operation that goes ahead at once where another waits.

    All of them reshard a two-partition collection holding at most one point. */
module ReshardAnomalies {
  import opened Store
  import opened ReshardMachine
  import opened ReshardTheorems
  import opened ReshardInvariant

  const R: Router := (id: Id) => id + 4
  const A := Record([1.0], map[], None, 1, 0, map[])
  const B := Record([2.0], map[], None, 1, 0, map[])
  const OLD := Route(2, 0)
  const NEW := Route(3, 1)
  const STABLE := Catalog(OLD, None)
  const BUILDING := Catalog(OLD, Some(Pins(OLD, NEW)))
  const FLIPPED := Catalog(NEW, Some(Pins(OLD, NEW)))
  const QUIET := History({}, {}, {}, {}, {}, {}, {})

  /** Point 0 lives in partition 0 of the old generation and 1 of the new one. */
  function World(old0: map<Id, Record>, new1: map<Id, Record>): (parts: Partitions)
  {
    map[Phys(0, 0) := old0, Phys(0, 1) := map[], Phys(1, 0) := map[], Phys(1, 1) := new1, Phys(1, 2) := map[]]
  }

  function OldWorld(old0: map<Id, Record>): (parts: Partitions) { map[Phys(0, 0) := old0, Phys(0, 1) := map[]] }

  // ---------- getting to the first scan ----------

  /** A coordinator step given by its four effects. */
  lemma Tick(s: State, recs: seq<(Id, Record)>, s': State)
    requires Reachable(R, s) && s.log != [] && CoordEnabled(R, s, recs)
    requires s' == State(CoordParts(R, s), CoordLog(s), s.at, s.writers, s.acked, CoordPc(R, s, recs), CoordHistory(R, s))
    ensures Reachable(R, s')
  {
    ReachStep(R, s, Coord(recs));
  }

  /** Node `n` applies the next catalog entry. */
  lemma Applied(s: State, n: Node)
    requires Reachable(R, s) && n in s.at && s.at[n] + 1 < |s.log|
    ensures Reachable(R, s.(at := s.at[n := s.at[n] + 1]))
  {
    hide Reachable;
    ReachStep(R, s, NodeApply(n));
  }

  /** A crash outside the copy loop. */
  lemma Crashed(s: State)
    requires Reachable(R, s) && s.log != [] && !s.pc.Idle? && !s.pc.Copy?
    ensures Reachable(R, s.(pc := Idle, h := NewPass(s.h)))
  {
    hide Reachable;
    ReachStep(R, s, Crash);
  }

  lemma Begins(s: State, goal: nat)
    requires Reachable(R, s) && s.log != [] && s.pc.Idle?
    ensures Reachable(R, s.(pc := StartReshard(Durable(s), goal)))
  {
    hide Reachable;
    ReachStep(R, s, BeginReshard(goal));
  }

  function Initial(at: map<Node, nat>, m: map<Id, Record>): (s: State)
  {
    State(OldWorld(m), [STABLE], at, map[], m, Idle, QUIET)
  }

  lemma Start(at: map<Node, nat>, m: map<Id, Record>)
    requires (forall n :: n in at ==> at[n] == 0) && m.Keys <= {0}
    ensures Reachable(R, Initial(at, m))
  {
    var s := Initial(at, m);
    forall x: Id ensures Read(s.parts, Home(R, OLD, x), x) == Acked(s, x) {
      assert Home(R, OLD, x) == Phys(0, (x + 4) % 2);
    }
    forall p, x: Id | 0 <= p < 2 && x in s.parts[Phys(0, p)] ensures p == PartitionOf(R, x, 2) {
      assert x == 0;
    }
    assert Init(R, s);
    assert IsRun(R, [s], []);
    assert [s][|[s]| - 1] == s;
  }

  lemma {:induction false} DropLoop(s: State, gen: nat)
    requires Reachable(R, s) && s.log != [] && s.pc.DropNew? && s.pc.p <= s.pc.goal
    requires Durable(s).rs.None? && gen == Durable(s).cur.gen + 1 && Absent(s.parts, gen, s.pc.p, s.pc.goal)
    ensures Reachable(R, s.(pc := CreateNew(s.pc.goal, 0, false)))
    decreases s.pc.goal - s.pc.p
  {
    hide Reachable;
    if s.pc.p < s.pc.goal {
      var s' := s.(pc := DropNew(s.pc.goal, s.pc.p + 1));
      assert s.parts - {Phys(gen, s.pc.p)} == s.parts;
      Tick(s, [], s');
      DropLoop(s', gen);
    } else {
      Tick(s, [], s.(pc := CreateNew(s.pc.goal, 0, false)));
    }
  }

  function WithNew(parts: Partitions, gen: nat, lo: nat, hi: nat): (r: Partitions)
    decreases hi - lo
  {
    if lo >= hi then parts
    else WithNew(if Phys(gen, lo) in parts then parts else parts[Phys(gen, lo) := map[]], gen, lo + 1, hi)
  }

  lemma {:induction false} CreateLoop(s: State, gen: nat)
    requires Reachable(R, s) && s.log != [] && s.pc.CreateNew? && s.pc.p <= s.pc.goal
    requires gen == Durable(s).cur.gen + 1 && (s.pc.resume || Absent(s.parts, gen, s.pc.p, s.pc.goal))
    ensures Reachable(R, s.(parts := WithNew(s.parts, gen, s.pc.p, s.pc.goal),
                            pc := CreateNew(s.pc.goal, s.pc.goal, s.pc.resume)))
    decreases s.pc.goal - s.pc.p
  {
    hide Reachable;
    if s.pc.p < s.pc.goal {
      var s' := s.(parts := CoordParts(R, s), pc := CreateNew(s.pc.goal, s.pc.p + 1, s.pc.resume));
      Tick(s, [], s');
      CreateLoop(s', gen);
    }
  }

  /** The reshard state is durable; `at` says who has applied it. */
  function Begun(at: map<Node, nat>, m: map<Id, Record>): (s: State)
  {
    State(World(m, map[]), [STABLE, BUILDING], at, map[], m, Grace(3), QUIET)
  }

  lemma Created(at: map<Node, nat>, m: map<Id, Record>)
    requires (forall n :: n in at ==> at[n] == 0) && m.Keys <= {0}
    ensures Reachable(R, Initial(at, m).(parts := World(m, map[]), pc := CreateNew(3, 3, false)))
  {
    hide Reachable, CoordStep, CoordEnabled;
    var s0 := Initial(at, m);
    Start(at, m);
    Begins(s0, 3);
    DropLoop(s0.(pc := DropNew(3, 0)), 1);
    CreateLoop(s0.(pc := CreateNew(3, 0, false)), 1);
    assert WithNew(OldWorld(m), 1, 0, 3) == World(m, map[]);
  }

  lemma Prepare(at: map<Node, nat>, m: map<Id, Record>)
    requires (forall n :: n in at ==> at[n] == 0) && m.Keys <= {0}
    ensures Reachable(R, Begun(at, m))
  {
    hide Reachable;
    var s1 := Initial(at, m).(parts := World(m, map[]), pc := CreateNew(3, 3, false));
    Created(at, m);
    Tick(s1, [], s1.(pc := SetState(3)));
    assert LateDirt(R, s1.(pc := SetState(3)), NEW) == {};
    Tick(s1.(pc := SetState(3)), [], Begun(at, m));
  }

  /** The only node applies the state, and the drain grace passes. */
  lemma Graced(m: map<Id, Record>)
    requires m.Keys <= {0}
    ensures Reachable(R, Begun(map[0 := 1], m).(pc := Scan(3, 0, 0)))
  {
    hide Reachable;
    var s := Begun(map[0 := 0], m);
    Prepare(map[0 := 0], m);
    Applied(s, 0);
    assert s.at[0 := 1] == map[0 := 1];
    Tick(Begun(map[0 := 1], m), [], Begun(map[0 := 1], m).(pc := Scan(3, 0, 0)));
  }

  // ---------- whole writes, whole passes ----------

  function Put(v: Option<Record>): (m: map<Id, Record>) { if v.Some? then map[0 := v.value] else map[] }

  lemma WriteWorld(o: map<Id, Record>, w: map<Id, Record>, v: Option<Record>)
    requires o.Keys <= {0} && w.Keys <= {0}
    ensures Write(World(o, w), Phys(0, 0), 0, v) == World(Put(v), w)
    ensures Write(World(o, w), Phys(1, 1), 0, v) == World(o, Put(v))
  {
    if v.Some? {
      assert o[0 := v.value] == Put(v) && w[0 := v.value] == Put(v);
    } else {
      assert o - {0} == Put(v) && w - {0} == Put(v);
    }
  }

  function Dual(op: Op, leg: nat): (w: Writer) { Writer(op, Phys(0, 0), Some(Phys(1, 1)), leg, leg > 0) }

  /** A dual write of point 0 runs to its acknowledgement and harms nothing. */
  lemma DualWrite(s: State, n: Node, op: Op, o: map<Id, Record>, w: map<Id, Record>)
    requires Reachable(R, s) && s.log == [STABLE, BUILDING] && n in s.at && s.at[n] == 1 && s.h == QUIET && (s.pc.Grace? || s.pc.Copy?)
    requires s.parts == World(o, w) && o.Keys <= {0} && w.Keys <= {0} && s.acked.Keys <= {0} && s.writers == map[]
    ensures Reachable(R, s.(parts := World(Put(Effect(op)), Put(Effect(op))), acked := Put(Effect(op))))
  {
    DualLive(s, n, op, o, w);
    var e := Put(Effect(op));
    DualTarget(s, op, e, w);
    hide Reachable, World;
    var s3 := s.(parts := World(e, e), writers := map[0 := Dual(op, 2)]);
    AckIt(s3, op);
    assert s3.(acked := e, writers := map[]) == s.(parts := World(e, e), acked := e);
  }

  /** Its first leg. */
  lemma DualLive(s: State, n: Node, op: Op, o: map<Id, Record>, w: map<Id, Record>)
    requires Reachable(R, s) && s.log == [STABLE, BUILDING] && n in s.at && s.at[n] == 1
    requires s.parts == World(o, w) && o.Keys <= {0} && w.Keys <= {0} && s.writers == map[]
    ensures Reachable(R, s.(parts := World(Put(Effect(op)), w), writers := map[0 := Dual(op, 1)]))
  {
    hide Reachable;
    var s1 := s.(writers := map[0 := Dual(op, 0)]);
    ReachStep(R, s, StartWrite(n, 0, op));
    assert Do(R, s, StartWrite(n, 0, op)) == s1;
    WriteWorld(o, w, Effect(op));
    LiveTo(s1, s.(parts := World(Put(Effect(op)), w), writers := map[0 := Dual(op, 1)]));
  }

  /** And its second. */
  lemma DualTarget(s: State, op: Op, o: map<Id, Record>, w: map<Id, Record>)
    requires Reachable(R, s.(parts := World(o, w), writers := map[0 := Dual(op, 1)]))
    requires s.log == [STABLE, BUILDING] && s.h == QUIET && o.Keys <= {0} && w.Keys <= {0} && (s.pc.Grace? || s.pc.Copy?)
    ensures Reachable(R, s.(parts := World(o, Put(Effect(op))), writers := map[0 := Dual(op, 2)]))
  {
    hide Reachable;
    var s2 := s.(parts := World(o, w), writers := map[0 := Dual(op, 1)]);
    var s3 := s.(parts := World(o, Put(Effect(op))), writers := map[0 := Dual(op, 2)]);
    WriteWorld(o, w, Effect(op));
    assert Home(R, NEW, 0) == Phys(1, 1);
    assert Landed(R, s2, Phys(1, 1), 0, op) == QUIET;
    assert Completed(R, BUILDING, s3.parts, s.pc, 0, Dual(op, 1), QUIET) == QUIET;
    TargetTo(s2, s3);
  }

  lemma LiveTo(s: State, s': State)
    requires Reachable(R, s) && s.log != [] && LiveEnabled(s, 0)
    requires var t := LiveStep(R, s, 0); s' == s.(parts := t.parts, writers := t.writers, h := t.h)
    ensures Reachable(R, s')
  {
    hide Reachable;
    ReachStep(R, s, LiveLeg(0));
  }

  lemma TargetTo(s: State, s': State)
    requires Reachable(R, s) && s.log != [] && TargetEnabled(s, 0)
    requires var t := TargetStep(R, s, 0); s' == s.(parts := t.parts, writers := t.writers, h := t.h)
    ensures Reachable(R, s')
  {
    hide Reachable;
    ReachStep(R, s, TargetLeg(0));
  }

  lemma AckIt(s: State, op: Op)
    requires Reachable(R, s) && s.log != [] && s.acked.Keys <= {0} && s.writers.Keys == {0}
    requires s.writers[0].op == op && WriteDone(s.writers[0])
    ensures Reachable(R, s.(acked := Put(Effect(op)), writers := map[]))
  {
    hide Reachable;
    ReachStep(R, s, Ack(0));
    assert s.writers - {0} == map[];
    assert AckStep(s, 0).acked == Put(Effect(op));
  }

  /** A write of point 0 through a node that knows of no reshard. */
  lemma SingleWrite(s: State, n: Node, op: Op, parts: Partitions, h': History)
    requires Reachable(R, s) && s.log != [] && s.writers == map[] && s.acked.Keys <= {0} && Phys(0, 0) in s.parts
    requires n in s.at && s.at[n] < |s.log| && View(s, n) == STABLE && parts == Write(s.parts, Phys(0, 0), 0, Effect(op))
    requires h' == Completed(R, Durable(s), parts, s.pc, 0, Writer(op, Phys(0, 0), None, 0, false), s.h)
    ensures Reachable(R, s.(parts := parts, acked := Put(Effect(op)), h := h'))
  {
    hide Reachable, Completed;
    var s1 := s.(writers := map[0 := Writer(op, Phys(0, 0), None, 0, false)]);
    ReachStep(R, s, StartWrite(n, 0, op));
    assert Do(R, s, StartWrite(n, 0, op)) == s1;
    var s2 := s.(parts := parts, writers := map[0 := Writer(op, Phys(0, 0), None, 1, true)], h := h');
    LiveTo(s1, s2);
    AckIt(s2, op);
    assert s2.(acked := Put(Effect(op)), writers := map[]) == s.(parts := parts, acked := Put(Effect(op)), h := h');
  }

  /** A pass over partitions that hold nothing. */
  lemma {:induction false} EmptyPass(s: State)
    requires Reachable(R, s) && s.log != [] && PreCutover(Durable(s)) && Durable(s).cur == OLD
    requires s.pc.Scan? && s.pc.p <= 2
    requires forall p :: s.pc.p <= p < 2 ==> Phys(0, p) in s.parts && s.parts[Phys(0, p)] == map[]
    ensures Reachable(R, s.(pc := Scan(s.pc.goal, s.pc.pass, 2)))
    decreases 2 - s.pc.p
  {
    hide Reachable;
    if s.pc.p < 2 {
      var s1 := s.(pc := Copy(s.pc.goal, s.pc.pass, s.pc.p, [], 0, Insert));
      assert IsScan([], s.parts[Phys(0, s.pc.p)]);
      Tick(s, [], s1);
      var s2 := s.(pc := Scan(s.pc.goal, s.pc.pass, s.pc.p + 1));
      Tick(s1, [], s2);
      EmptyPass(s2);
    }
  }

  /** Both passes over an old generation that holds nothing. */
  lemma EmptyPasses(s: State)
    requires Reachable(R, s) && s.log != [] && PreCutover(Durable(s)) && Durable(s).cur == OLD
    requires s.pc.Scan? && s.pc.pass == 0 && s.pc.p == 0
    requires Phys(0, 0) in s.parts && s.parts[Phys(0, 0)] == map[] && Phys(0, 1) in s.parts && s.parts[Phys(0, 1)] == map[]
    ensures Reachable(R, s.(pc := Flip(s.pc.goal), h := NewPass(s.h)))
  {
    hide Reachable;
    var goal := s.pc.goal;
    EmptyPass(s);
    var s1 := s.(pc := Scan(goal, 1, 0), h := NewPass(s.h));
    Tick(s.(pc := Scan(goal, 0, 2)), [], s1);
    EmptyPass(s1);
    Tick(s1.(pc := Scan(goal, 1, 2)), [], s1.(pc := Flip(goal)));
  }

  /** The flip, which node 0 applies. */
  lemma FlipAndApply(s: State, h: History)
    requires Reachable(R, s) && s.log == [STABLE, BUILDING] && s.pc == Flip(3) && 0 in s.at && s.at[0] == 1
    requires h == FlipHistory(R, s)
    ensures Reachable(R, s.(log := [STABLE, BUILDING, FLIPPED], at := s.at[0 := 2], pc := Gate(3), h := h))
  {
    hide Reachable;
    var s2 := s.(log := [STABLE, BUILDING, FLIPPED], pc := Gate(3), h := h);
    assert s.log + [FLIPPED] == s2.log;
    Tick(s, [], s2);
    ReachStep(R, s2, NodeApply(0));
  }

  // ---------- unlucky timing ----------

  /** What goes wrong: a node reads point 0 from the partition its view names and
      does not get the last acknowledged write, although no write is in flight. */
  ghost predicate Violates(s: State)
  {
    && Reachable(R, s) && s.writers == map[]
    && 0 in s.at && s.at[0] < |s.log|
    && Read(s.parts, Home(R, View(s, 0).cur, 0), 0) != Acked(s, 0)
  }

  lemma ScanPoint(v: Record)
    ensures IsScan([(0, v)], map[0 := v])
  {
    assert [(0, v)][0].0 == 0;
  }

  /** The flip to a new generation that does not hold what the clients were told. */
  lemma FlipViolates(s: State) returns (s': State)
    requires Reachable(R, s) && s.log == [STABLE, BUILDING] && s.pc == Flip(3) && 0 in s.at && s.at[0] == 1
    requires s.writers == map[] && Read(s.parts, Phys(1, 1), 0) != Acked(s, 0)
    ensures Violates(s')
  {
    hide Reachable;
    var h := FlipHistory(R, s);
    FlipAndApply(s, h);
    s' := s.(log := [STABLE, BUILDING, FLIPPED], at := s.at[0 := 2], pc := Gate(3), h := h);
    assert Home(R, NEW, 0) == Phys(1, 1);
  }

  /** The coordinator dies after copying a point that was deleted since the scan
      and before guarding it.  The resumed run never sees the point again, and
      the flip brings it back. */
  lemma DeletedPointReturns() returns (s: State)
    ensures Violates(s)
  {
    hide Reachable;
    var s1 := Begun(map[0 := 1], map[0 := A]);
    Graced(map[0 := A]);
    var copy := Copy(3, 0, 0, [(0, A)], 0, Insert);
    ScanPoint(A);
    Tick(s1.(pc := Scan(3, 0, 0)), [(0, A)], s1.(pc := copy));
    DualWrite(s1.(pc := copy), 0, Delete, map[0 := A], map[]);
    var s2 := State(World(map[], map[]), [STABLE, BUILDING], map[0 := 1], map[], map[], copy, QUIET);
    assert s2 == s1.(pc := copy, parts := World(map[], map[]), acked := map[]);
    s := Strand(s2);
  }

  lemma Strand(s2: State) returns (s: State)
    requires Reachable(R, s2)
    requires s2 == State(World(map[], map[]), [STABLE, BUILDING], map[0 := 1], map[], map[],
                         Copy(3, 0, 0, [(0, A)], 0, Insert), QUIET)
    ensures Violates(s)
  {
    hide Reachable;
    InsertTick(s2, map[], map[]);
    var s4 := s2.(parts := World(map[], map[0 := A]), pc := Idle, h := QUIET.(dirty := {0}));
    MidCrash(s2.(parts := World(map[], map[0 := A]), pc := s2.pc.(sub := Check)), s4);
    hide World;
    HasNew(map[], map[0 := A]);
    Resume(s4);
    EmptyPasses(s4.(pc := Scan(3, 0, 0)));
    s := FlipViolates(s4.(pc := Flip(3)));
  }

  lemma MidCrash(s: State, s': State)
    requires Reachable(R, s) && s.log == [STABLE, BUILDING] && s.parts == World(map[], map[0 := A])
    requires s.pc == Copy(3, 0, 0, [(0, A)], 0, Check) && s.h == QUIET && s' == s.(pc := Idle, h := QUIET.(dirty := {0}))
    ensures Reachable(R, s')
  {
    hide Reachable;
    ReachStep(R, s, Crash);
    assert Home(R, NEW, 0) == Phys(1, 1);
    assert CrashStep(R, s) == s';
  }

  /** The copy loop inserts the scanned point unless the new generation has one. */
  lemma InsertTick(s: State, o: map<Id, Record>, w: map<Id, Record>)
    requires Reachable(R, s) && s.log == [STABLE, BUILDING] && s.parts == World(o, w) && (w == map[] || w == map[0 := A])
    requires s.pc.Copy? && s.pc.recs == [(0, A)] && s.pc.i == 0 && s.pc.sub == Insert && s.h == QUIET && o.Keys <= {0}
    ensures Reachable(R, s.(parts := World(o, map[0 := A]), pc := s.pc.(sub := Check)))
  {
    hide Reachable;
    WriteWorld(o, w, Some(A));
    assert Home(R, NEW, 0) == Phys(1, 1);
    var s' := s.(parts := World(o, map[0 := A]), pc := s.pc.(sub := Check));
    assert CopyHistory(R, s) == QUIET;
    assert CopyParts(R, s) == s'.parts;
    Tick(s, [], s');
  }

  lemma HasNew(o: map<Id, Record>, w: map<Id, Record>)
    ensures forall p :: 0 <= p < 3 ==> Phys(1, p) in World(o, w)
    ensures Phys(0, 0) in World(o, w) && World(o, w)[Phys(0, 0)] == o && Phys(0, 1) in World(o, w) && World(o, w)[Phys(0, 1)] == map[]
    ensures Read(World(o, w), Phys(1, 1), 0) == if 0 in w then Some(w[0]) else None
  {
  }

  /** A re-run goes straight to the first scan: it waits for nobody. */
  lemma Resume(s: State)
    requires Reachable(R, s) && s.log == [STABLE, BUILDING] && s.pc == Idle && s.h.stale == {} && s.h.lost == {}
    requires forall p :: 0 <= p < 3 ==> Phys(1, p) in s.parts
    ensures Reachable(R, s.(pc := Scan(3, 0, 0)))
  {
    hide Reachable;
    Begins(s, 3);
    CreateLoop(s.(pc := CreateNew(3, 0, true)), 1);
    assert WithNew(s.parts, 1, 0, 3) == s.parts;
    Tick(s.(pc := CreateNew(3, 3, true)), [], s.(pc := Scan(3, 0, 0)));
  }

  /** One node has applied the reshard state, another has not: a write through
      the first lands on both generations, a later delete through the second on
      the old one only.  Nothing ever removes the point from the new one. */
  lemma DeleteThroughLaggingNodeIsLost() returns (s: State)
    ensures Violates(s)
  {
    hide Reachable;
    var at0, at1, at2: map<Node, nat> := map[0 := 0, 1 := 0], map[0 := 1, 1 := 0], map[0 := 1, 1 := 1];
    var m := map[0 := A];
    Prepare(at0, m);
    Applied(Begun(at0, m), 0);
    assert at0[0 := 1] == at1;
    DualWrite(Begun(at1, m), 0, Upsert(B), m, map[]);
    var s1 := Begun(at1, m).(parts := World(map[0 := B], map[0 := B]), acked := map[0 := B]);
    LaggingDelete(s1);
    var s2 := s1.(parts := World(map[], map[0 := B]), acked := map[], h := QUIET.(dirty := {0}));
    Applied(s2, 1);
    assert at1[1 := 1] == at2;
    s := GraceAndFlip(s2.(at := at2));
  }

  lemma LaggingDelete(s: State)
    requires Reachable(R, s) && s.log == [STABLE, BUILDING] && s.pc == Grace(3) && s.h == QUIET && s.writers == map[]
    requires s.parts == World(map[0 := B], map[0 := B]) && s.acked == map[0 := B] && 1 in s.at && s.at[1] == 0
    ensures Reachable(R, s.(parts := World(map[], map[0 := B]), acked := map[], h := QUIET.(dirty := {0})))
  {
    hide Reachable;
    WriteWorld(map[0 := B], map[0 := B], None);
    assert Home(R, NEW, 0) == Phys(1, 1);
    SingleWrite(s, 1, Delete, World(map[], map[0 := B]), QUIET.(dirty := {0}));
  }

  lemma GraceAndFlip(s: State) returns (s': State)
    requires Reachable(R, s) && s.log == [STABLE, BUILDING] && s.pc == Grace(3) && s.writers == map[] && s.acked == map[]
    requires s.parts == World(map[], map[0 := B]) && s.h == QUIET.(dirty := {0}) && s.at == map[0 := 1, 1 := 1]
    ensures Violates(s')
  {
    hide Reachable;
    Tick(s, [], s.(pc := Scan(3, 0, 0)));
    HasNew(map[], map[0 := B]);
    hide World;
    EmptyPasses(s.(pc := Scan(3, 0, 0)));
    s' := FlipViolates(s.(pc := Flip(3)));
  }

  /** In the second pass a point is deleted, found gone by the liveness check,
      and re-inserted before the guard runs: the guard deletes the new value. */
  lemma ReinsertedPointIsLost() returns (s: State)
    ensures Violates(s)
  {
    hide Reachable;
    CopyOnePoint(0, map[]);
    var copy := Copy(3, 1, 0, [(0, A)], 0, Insert);
    var s1 := Begun(map[0 := 1], map[0 := A]).(parts := World(map[0 := A], map[0 := A]), pc := Scan(3, 1, 0));
    ScanPoint(A);
    Tick(s1, [(0, A)], s1.(pc := copy));
    DualWrite(s1.(pc := copy), 0, Delete, map[0 := A], map[0 := A]);
    var s2 := State(World(map[], map[]), [STABLE, BUILDING], map[0 := 1], map[], map[], copy, QUIET);
    assert s2 == s1.(pc := copy, parts := World(map[], map[]), acked := map[]);
    s := GuardRace(s2);
  }

  /** An undisturbed pass copies the point. */
  lemma {:induction false} CopyOnePoint(pass: nat, held: map<Id, Record>)
    requires (pass == 0 && held == map[]) || (pass == 1 && held == map[0 := A])
    ensures Reachable(R, Begun(map[0 := 1], map[0 := A]).(parts := World(map[0 := A], map[0 := A]),
                                                          pc := if pass == 0 then Scan(3, 1, 0) else Flip(3)))
    decreases pass
  {
    hide Reachable;
    var s := Begun(map[0 := 1], map[0 := A]).(parts := World(map[0 := A], held), pc := Scan(3, pass, 0));
    if pass == 0 { Graced(map[0 := A]); } else { CopyOnePoint(0, map[]); }
    ScanPoint(A);
    var c := Copy(3, pass, 0, [(0, A)], 0, Insert);
    Tick(s, [(0, A)], s.(pc := c));
    InsertTick(s.(pc := c), map[0 := A], held);
    PassEnd(s.(parts := World(map[0 := A], map[0 := A]), pc := c.(sub := Check)));
  }

  lemma PassEnd(t: State)
    requires Reachable(R, t) && t == Begun(map[0 := 1], map[0 := A]).(parts := t.parts, pc := t.pc)
    requires t.parts == World(map[0 := A], map[0 := A]) && t.pc.Copy? && t.pc == Copy(3, t.pc.pass, 0, [(0, A)], 0, Check)
    requires t.pc.pass <= 1
    ensures Reachable(R, t.(pc := if t.pc.pass == 0 then Scan(3, 1, 0) else Flip(3)))
  {
    hide Reachable;
    var pass := t.pc.pass;
    var next := t.pc.(i := 1, sub := Insert);
    Tick(t, [], t.(pc := next));
    Tick(t.(pc := next), [], t.(pc := Scan(3, pass, 1)));
    EmptyPass(t.(pc := Scan(3, pass, 1)));
    Tick(t.(pc := Scan(3, pass, 2)), [], t.(pc := if pass == 0 then Scan(3, 1, 0) else Flip(3)));
  }

  lemma GuardRace(s2: State) returns (s: State)
    requires Reachable(R, s2)
    requires s2 == State(World(map[], map[]), [STABLE, BUILDING], map[0 := 1], map[], map[],
                         Copy(3, 1, 0, [(0, A)], 0, Insert), QUIET)
    ensures Violates(s)
  {
    hide Reachable;
    InsertTick(s2, map[], map[]);
    var s3 := s2.(parts := World(map[], map[0 := A]), pc := s2.pc.(sub := Check));
    var s4 := s3.(pc := s2.pc.(sub := Guard));
    Tick(s3, [], s4);
    hide World, CoordEnabled;
    DualWrite(s4, 0, Upsert(B), map[], map[0 := A]);
    s := GuardDeletes(s4.(parts := World(map[0 := B], map[0 := B]), acked := map[0 := B]));
  }

  lemma GuardDeletes(s5: State) returns (s: State)
    requires Reachable(R, s5)
    requires s5 == State(World(map[0 := B], map[0 := B]), [STABLE, BUILDING], map[0 := 1], map[], map[0 := B],
                         Copy(3, 1, 0, [(0, A)], 0, Guard), QUIET)
    ensures Violates(s)
  {
    hide Reachable;
    var s6 := s5.(parts := World(map[0 := B], map[]), pc := s5.pc.(i := 1, sub := Insert), h := QUIET.(lost := {0}));
    WriteWorld(map[0 := B], map[0 := B], None);
    assert Home(R, NEW, 0) == Phys(1, 1);
    Tick(s5, [], s6);
    s := LostAtFlip(s6);
  }

  lemma LostAtFlip(s6: State) returns (s: State)
    requires Reachable(R, s6) && s6.log == [STABLE, BUILDING] && s6.at == map[0 := 1] && s6.writers == map[]
    requires s6.parts == World(map[0 := B], map[]) && s6.acked == map[0 := B] && s6.pc == Copy(3, 1, 0, [(0, A)], 1, Insert)
    ensures Violates(s)
  {
    hide Reachable;
    Tick(s6, [], s6.(pc := Scan(3, 1, 1)));
    EmptyPass(s6.(pc := Scan(3, 1, 1)));
    Tick(s6.(pc := Scan(3, 1, 2)), [], s6.(pc := Flip(3)));
    s := FlipViolates(s6.(pc := Flip(3)));
  }

  // ---------- no wait where one is needed ----------

  /** The coordinator dies between the flip and the gate and `VectorReshard` is run
      again at once: the sweep drops the partition a node that has not applied the
      flip still routes to. */
  lemma FinalizeStrandsLaggingNode() returns (s: State)
    ensures Violates(s)
  {
    hide Reachable;
    CopyOnePoint(1, map[0 := A]);
    var s0 := Begun(map[0 := 1], map[0 := A]).(parts := World(map[0 := A], map[0 := A]), pc := Flip(3));
    var s1 := s0.(log := [STABLE, BUILDING, FLIPPED], pc := Gate(3), h := FlipHistory(R, s0));
    assert s0.log + [FLIPPED] == s1.log;
    Tick(s0, [], s1);
    var s2 := s1.(pc := Idle, h := NewPass(s1.h));
    Crashed(s1);
    Begins(s2, 3);
    s := FinalizeAtOnce(s2);
  }

  lemma FinalizeAtOnce(s2: State) returns (s: State)
    requires Reachable(R, s2.(pc := FinClear(3))) && s2.log == [STABLE, BUILDING, FLIPPED] && s2.at == map[0 := 1]
    requires s2.parts == World(map[0 := A], map[0 := A]) && s2.writers == map[] && s2.acked == map[0 := A]
    ensures Violates(s)
  {
    hide Reachable;
    var log := [STABLE, BUILDING, FLIPPED, Catalog(NEW, None)];
    var s3 := s2.(log := log, pc := Sweep(3, true, 0, 0, 0));
    assert s2.log + [Catalog(NEW, None)] == log;
    Tick(s2.(pc := FinClear(3)), [], s3);
    s := s3.(parts := s3.parts - {Phys(0, 0)}, pc := Sweep(3, true, 0, 1, 0));
    Tick(s3, [], s);
  }

  /** A crash right after the reshard state is set, and a re-run at once, while a node
      has not applied the state: a point written through it after the second scan of
      its partition is gone at the flip. */
  lemma ResumeLosesNewPoint() returns (s: State)
    ensures Violates(s)
  {
    hide Reachable;
    var at0: map<Node, nat> := map[0 := 0];
    Prepare(at0, map[]);
    var s0 := Begun(at0, map[]);
    Crashed(s0);
    assert NewPass(QUIET) == QUIET;
    HasNew(map[], map[]);
    hide World;
    Resume(s0.(pc := Idle));
    EmptyPasses(s0.(pc := Scan(3, 0, 0)));
    s := NewPointAtFlip(s0.(pc := Flip(3)));
  }

  lemma NewPointAtFlip(s: State) returns (s': State)
    requires Reachable(R, s) && s == Begun(map[0 := 0], map[]).(pc := Flip(3))
    ensures Violates(s')
  {
    hide Reachable;
    var h := QUIET.(lost := {0});
    WriteWorld(map[], map[], Some(B));
    assert Home(R, NEW, 0) == Phys(1, 1);
    SingleWrite(s, 0, Upsert(B), World(map[0 := B], map[]), h);
    var s1 := s.(parts := World(map[0 := B], map[]), acked := map[0 := B], h := h);
    Applied(s1, 0);
    s' := FlipViolates(s1.(at := s.at[0 := 1]));
  }

  const WIDER := Route(5, 1)
  const REBUILDING := Catalog(OLD, Some(Pins(OLD, WIDER)))

  function Wider(old0: map<Id, Record>, new1: map<Id, Record>): (parts: Partitions)
  {
    World(old0, new1)[Phys(1, 3) := map[]][Phys(1, 4) := map[]]
  }

  /** A deleted point that the partitions a node searches still hold, in one that does
      not own it, so that no write will ever reach it. */
  ghost predicate Haunts(s: State)
  {
    && Reachable(R, s) && s.writers == map[] && 0 !in s.acked
    && 0 in s.at && s.at[0] < |s.log|
    && exists p :: 0 <= p < View(s, 0).cur.P && Phys(View(s, 0).cur.gen, p) != Home(R, View(s, 0).cur, 0) &&
                   Read(s.parts, Phys(View(s, 0).cur.gen, p), 0).Some?
  }

  /** A dual write is in flight when its reshard is aborted; a fresh reshard to another
      partition count creates the partition it addresses under the same name. */
  lemma OldWriteGoesAstray() returns (s: State)
    ensures Haunts(s)
  {
    hide Reachable;
    var m := map[0 := A];
    Prepare(map[0 := 0], m);
    Applied(Begun(map[0 := 0], m), 0);
    assert map[0 := 0][0 := 1] == map[0 := 1];
    var s1 := Begun(map[0 := 1], m);
    DualLive(s1, 0, Upsert(B), m, map[]);
    hide World;
    Aborted(s1.(parts := World(map[0 := B], map[]), writers := map[0 := Dual(Upsert(B), 1)]));
    s := StrayRun(s1.(parts := OldWorld(map[0 := B]), log := [STABLE, BUILDING, STABLE], writers := map[0 := Dual(Upsert(B), 1)], pc := Idle));
  }

  lemma StrayRun(s3: State) returns (s: State)
    requires Reachable(R, s3) && s3.log == [STABLE, BUILDING, STABLE] && s3.pc == Idle && s3.h == QUIET && s3.at == map[0 := 1]
    requires s3.parts == OldWorld(map[0 := B]) && s3.acked == map[0 := A] && s3.writers == map[0 := Dual(Upsert(B), 1)]
    ensures Haunts(s)
  {
    hide Reachable, Wider, OldWorld;
    Recreated(s3);
    var h := QUIET.(late := {0}, stray := {0});
    LateLeg(s3.(parts := Wider(map[0 := B], map[]), pc := SetState(5)), h);
    var s5 := s3.(parts := Wider(map[0 := B], map[0 := B]), writers := map[], acked := map[0 := B], pc := SetState(5), h := h);
    assert s5 == s3.(parts := Wider(map[0 := B], map[]), pc := SetState(5)).(parts := s5.parts, writers := map[], acked := map[0 := B], h := h);
    Applied(s5, 0);
    assert map[0 := 1][0 := 2] == map[0 := 2];
    DeletedAtHome(s5.(at := map[0 := 2]));
    s := Haunted(s5.(at := map[0 := 2], parts := Wider(map[], map[0 := B]), acked := map[]));
  }

  lemma DeletedAtHome(s: State)
    requires Reachable(R, s) && s.log == [STABLE, BUILDING, STABLE] && s.at == map[0 := 2] && s.pc == SetState(5)
    requires s.parts == Wider(map[0 := B], map[0 := B]) && s.writers == map[] && s.acked == map[0 := B]
    requires s.h == QUIET.(late := {0}, stray := {0})
    ensures Reachable(R, s.(parts := Wider(map[], map[0 := B]), acked := map[]))
  {
    hide Reachable;
    assert map[0 := B] - {0} == map[];
    assert Write(s.parts, Phys(0, 0), 0, None) == Wider(map[], map[0 := B]);
    SingleWrite(s, 0, Delete, Wider(map[], map[0 := B]), s.h);
  }

  /** The coordinator dies in the grace and the reshard is aborted. */
  lemma Aborted(s: State)
    requires Reachable(R, s) && s.log == [STABLE, BUILDING] && s.pc == Grace(3) && s.h == QUIET
    requires s.parts == World(map[0 := B], map[])
    ensures Reachable(R, s.(parts := OldWorld(map[0 := B]), log := [STABLE, BUILDING, STABLE], pc := Idle))
  {
    hide Reachable;
    Crashed(s);
    assert NewPass(QUIET) == QUIET;
    ReachStep(R, s.(pc := Idle), BeginAbort);
    var log := [STABLE, BUILDING, STABLE];
    assert s.log + [STABLE] == log;
    Tick(s.(pc := AbortClear), [], s.(log := log, pc := AbortDrop(NEW, 0)));
    AbortLoop(s.(log := log, pc := AbortDrop(NEW, 0)));
    assert s.parts - {Phys(1, 0)} - {Phys(1, 1)} - {Phys(1, 2)} == OldWorld(map[0 := B]);
  }

  lemma AbortLoop(s: State)
    requires Reachable(R, s) && s.log == [STABLE, BUILDING, STABLE] && s.pc == AbortDrop(NEW, 0)
    ensures Reachable(R, s.(parts := s.parts - {Phys(1, 0)} - {Phys(1, 1)} - {Phys(1, 2)}, pc := Idle))
  {
    hide Reachable;
    var s1 := s.(parts := s.parts - {Phys(1, 0)}, pc := AbortDrop(NEW, 1));
    Tick(s, [], s1);
    var s2 := s1.(parts := s1.parts - {Phys(1, 1)}, pc := AbortDrop(NEW, 2));
    Tick(s1, [], s2);
    var s3 := s2.(parts := s2.parts - {Phys(1, 2)}, pc := AbortDrop(NEW, 3));
    Tick(s2, [], s3);
    Tick(s3, [], s3.(pc := Idle));
  }

  /** A fresh reshard to five partitions creates its generation. */
  lemma Recreated(s: State)
    requires Reachable(R, s) && s.log == [STABLE, BUILDING, STABLE] && s.pc == Idle && s.parts == OldWorld(map[0 := B])
    ensures Reachable(R, s.(parts := Wider(map[0 := B], map[]), pc := SetState(5)))
  {
    hide Reachable;
    Begins(s, 5);
    DropLoop(s.(pc := DropNew(5, 0)), 1);
    CreateLoop(s.(pc := CreateNew(5, 0, false)), 1);
    assert WithNew(s.parts, 1, 0, 5) == Wider(map[0 := B], map[]);
    var s1 := s.(parts := Wider(map[0 := B], map[]), pc := CreateNew(5, 5, false));
    Tick(s1, [], s1.(pc := SetState(5)));
  }

  /** The old write's second leg finds the partition it was told about. */
  lemma LateLeg(s: State, h: History)
    requires Reachable(R, s) && s.log == [STABLE, BUILDING, STABLE] && s.pc == SetState(5) && s.h == QUIET
    requires s.parts == Wider(map[0 := B], map[]) && s.acked == map[0 := A] && s.writers == map[0 := Dual(Upsert(B), 1)]
    requires h == QUIET.(late := {0}, stray := {0})
    ensures Reachable(R, s.(parts := Wider(map[0 := B], map[0 := B]), writers := map[], acked := map[0 := B], h := h))
  {
    hide Reachable;
    var s1 := s.(parts := Wider(map[0 := B], map[0 := B]), writers := map[0 := Dual(Upsert(B), 2)], h := h);
    assert Home(R, WIDER, 0) == Phys(1, 4);
    assert Landed(R, s, Phys(1, 1), 0, Upsert(B)) == h;
    TargetTo(s, s1);
    AckIt(s1, Upsert(B));
  }

  /** The point is deleted from where it belongs; both passes see nothing. */
  lemma Haunted(s: State) returns (s': State)
    requires Reachable(R, s) && s.log == [STABLE, BUILDING, STABLE] && s.at == map[0 := 2] && s.pc == SetState(5)
    requires s.parts == Wider(map[], map[0 := B]) && s.writers == map[] && s.acked == map[]
    requires s.h == QUIET.(late := {0}, stray := {0})
    ensures Haunts(s')
  {
    hide Reachable;
    var h := QUIET.(stray := {0});
    var log := [STABLE, BUILDING, STABLE, REBUILDING];
    var s1 := s.(log := log, pc := Grace(5), h := h);
    assert s.log + [REBUILDING] == log;
    assert Home(R, WIDER, 0) == Phys(1, 4);
    assert LateDirt(R, s, WIDER) == {};
    Tick(s, [], s1);
    Applied(s1, 0);
    assert map[0 := 2][0 := 3] == map[0 := 3];
    s' := Grown(s1.(at := map[0 := 3]));
  }

  lemma Grown(s2: State) returns (s': State)
    requires Reachable(R, s2) && s2.log == [STABLE, BUILDING, STABLE, REBUILDING] && s2.at == map[0 := 3] && s2.pc == Grace(5)
    requires s2.parts == Wider(map[], map[0 := B]) && s2.writers == map[] && s2.acked == map[] && s2.h == QUIET.(stray := {0})
    ensures Haunts(s')
  {
    hide Reachable;
    Tick(s2, [], s2.(pc := Scan(5, 0, 0)));
    EmptyPasses(s2.(pc := Scan(5, 0, 0)));
    s' := Revealed(s2.(pc := Flip(5)));
  }

  lemma Revealed(s: State) returns (s': State)
    requires Reachable(R, s) && s.log == [STABLE, BUILDING, STABLE, REBUILDING] && s.at == map[0 := 3] && s.pc == Flip(5)
    requires s.parts == Wider(map[], map[0 := B]) && s.writers == map[] && s.acked == map[]
    ensures Haunts(s')
  {
    hide Reachable;
    var last := Catalog(WIDER, Some(Pins(OLD, WIDER)));
    var s1 := s.(log := s.log + [last], pc := Gate(5), h := FlipHistory(R, s));
    Tick(s, [], s1);
    Applied(s1, 0);
    s' := s1.(at := s.at[0 := 4]);
    assert Home(R, WIDER, 0) == Phys(1, 4);
    assert View(s', 0).cur == WIDER;
    var p := 1;
    assert Read(s'.parts, Phys(WIDER.gen, p), 0) == Some(B);
  }
}
