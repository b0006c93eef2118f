/** The online reshard of one partitioned collection as a step machine.

    Three kinds of actor interleave freely, one atomic step at a time:
      - clients, whose dual writes hit one physical partition per step
        (`dualTargets`, `applyDualWrite`);
      - cluster nodes, each applying the catalog log at its own pace;
      - one coordinator running `VectorReshard`, `VectorReshardAbort` or
        `VectorResplitCleanup`, which may crash (or see a call fail) between any
        two of its own steps and is then free to start another operation.

    Writes to one id are serial; writes to different ids interleave. */
module ReshardMachine {
  import opened Store

  type Node = nat

  /** The source and target pins of an in-progress reshard (`ReshardState`). */
  datatype Pins = Pins(from: Route, to: Route)

  /** One catalog value: the routed entry and, while resharding, the pins. */
  datatype Catalog = Catalog(cur: Route, rs: Option<Pins>)

  datatype Op = Upsert(v: Record) | Delete

  /** An in-flight write: the targets it resolved, how many legs of the current
      attempt are done, and whether any leg of any attempt has landed. */
  datatype Writer = Writer(op: Op, live: Phys, target: Option<Phys>, leg: nat, landed: bool)

  datatype CopyStep = Insert | Check | Guard

  /** Where the coordinator is.  `goal` is the requested partition count. */
  datatype Pc =
    | Idle
    | DropNew(goal: nat, p: nat)
    | CreateNew(goal: nat, p: nat, resume: bool)
    | SetState(goal: nat)
    | Grace(goal: nat)
    | Scan(goal: nat, pass: nat, p: nat)
    | Copy(goal: nat, pass: nat, p: nat, recs: seq<(Id, Record)>, i: nat, sub: CopyStep)
    | Flip(goal: nat)
    | Gate(goal: nat)
    | DropOld(goal: nat, gone: Route, p: nat)
    | FinClear(goal: nat)
    | Sweep(goal: nat, resume: bool, g: nat, p: nat, miss: nat)
    | AbortClear
    | AbortDrop(gone: Route, p: nat)

  /** Where the current copy pass stands with one id. */
  datatype Pos = Ahead | Todo(v: Record) | Inserted | Guarding | Behind

  /** What happened to which ids.  The protocol never reads it; the theorems use it
      to say exactly which ids are harmed, and by what.
        dirty     the new generation holds a value the old one does not: a write
                  that missed the new generation completed over it, a scanned copy
                  outdated by such a write was inserted, or the coordinator died
                  after copying a deleted id and before its guard;
        stale     such a write completed between the scan of its id and the copy;
        lost      the new generation lacks the value the old one has, and the pass
                  is over the id: the guard deleted an id that was back, or a write
                  that missed the new generation created it behind the scan;
        wrong     the routed generation does not hold the last write: the flip
                  switched to a harmed copy, or a write through a node with an old
                  view completed elsewhere;
        wrongOld  the same of the retiring generation, after the flip;
        late      a write addressed to an aborted generation landed in the one now
                  being created under the same number;
        stray     such a write landed in a partition that does not own its id. */
  datatype History = History(dirty: set<Id>, stale: set<Id>, lost: set<Id>, wrong: set<Id>, wrongOld: set<Id>,
                             late: set<Id>, stray: set<Id>)

  /** `log` is the durable catalog log and `at[n]` the entry node `n` has applied
      last; `acked` is the content the clients were told about. */
  datatype State = State(parts: Partitions, log: seq<Catalog>, at: map<Node, nat>,
                         writers: map<Id, Writer>, acked: map<Id, Record>, pc: Pc, h: History)

  const MAX_PARTITIONS: nat := 65536
  const GAP_TOLERANCE: nat := 256

  function Durable(s: State): (d: Catalog)
    requires s.log != []
  {
    s.log[|s.log| - 1]
  }

  function View(s: State, n: Node): (c: Catalog)
    requires n in s.at && s.at[n] < |s.log|
  {
    s.log[s.at[n]]
  }

  function Effect(op: Op): (v: Option<Record>)
  {
    if op.Upsert? then Some(op.v) else None
  }

  function Acked(s: State, x: Id): (v: Option<Record>)
  {
    if x in s.acked then Some(s.acked[x]) else None
  }

  predicate PreCutover(c: Catalog) { c.rs.Some? && c.cur == c.rs.value.from }

  predicate PostCutover(c: Catalog) { c.rs.Some? && c.cur == c.rs.value.to }

  /** `dualTargets`: the live partition of a write and, while resharding, the
      other generation's partition.  `None` as live means "not partitioned". */
  function DualTargets(route: Router, c: Catalog, id: Id): (t: (Option<Phys>, Option<Phys>))
  {
    var live := if c.cur.P <= 1 then None else Some(Home(route, c.cur, id));
    if c.rs.None? || c.rs.value.to.P == 0 then (live, None) else
    var newTarget := Some(Home(route, c.rs.value.to, id));
    if c.rs.value.from.P == 0 then (live, if newTarget == live then None else newTarget) else
    var oldTarget := Some(Home(route, c.rs.value.from, id));
    var target := if live == oldTarget then newTarget else oldTarget;
    (live, if target == live then None else target)
  }

  predicate Partitioned(c: Catalog) { 1 < c.cur.P }

  function Attempt(route: Router, c: Catalog, x: Id, op: Op, landed: bool): (w: Writer)
    requires Partitioned(c)
  {
    var t := DualTargets(route, c, x);
    Writer(op, t.0.value, t.1, 0, landed)
  }

  // ---------- waiting conditions of the coordinator ----------

  /** Every node has applied the whole log. */
  predicate AllCaught(s: State) { forall n :: n in s.at ==> s.at[n] + 1 == |s.log| }

  /** What the drain grace waits for: every node has applied the reshard state and
      every write still in flight addresses both generations. */
  predicate Drained(route: Router, s: State)
    requires s.log != [] && Durable(s).rs.Some?
  {
    && AllCaught(s)
    && forall x :: x in s.writers ==>
         && s.writers[x].live == Home(route, Durable(s).rs.value.from, x)
         && s.writers[x].target == Some(Home(route, Durable(s).rs.value.to, x))
  }

  // ---------- coordinator ----------

  /** The part of `VectorReshard` that reads the catalog and picks a path, after
      any finalize: resume, refuse, no-op or begin afresh. */
  function Resolve(d: Catalog, goal: nat): (pc: Pc)
  {
    if d.rs.Some? then
      if d.rs.value.to == Route(goal, d.cur.gen + 1) then CreateNew(goal, 0, true) else Idle
    else if goal == d.cur.P then Idle
    else DropNew(goal, 0)
  }

  function StartReshard(d: Catalog, goal: nat): (pc: Pc)
  {
    if goal <= 1 || goal > MAX_PARTITIONS then Idle
    else if PostCutover(d) then FinClear(goal)
    else Resolve(d, goal)
  }

  function StartAbort(d: Catalog): (pc: Pc)
  {
    if d.rs.Some? && d.cur != d.rs.value.to then AbortClear else Idle
  }

  function PosIn(recs: seq<(Id, Record)>, i: nat, sub: CopyStep, x: Id): (pos: Pos)
    decreases |recs| - i
  {
    if i >= |recs| then Behind
    else if recs[i].0 == x then (if sub == Insert then Todo(recs[i].1) else if sub == Check then Inserted else Guarding)
    else PosIn(recs, i + 1, Insert, x)
  }

  /** `P` is the partition count of the generation being copied. */
  function PosOf(route: Router, pc: Pc, P: nat, x: Id): (pos: Pos)
  {
    match pc
    case Scan(_, _, p) => if PartitionOf(route, x, P) < p then Behind else Ahead
    case Copy(_, _, p, recs, i, sub) =>
      if PartitionOf(route, x, P) < p then Behind
      else if p < PartitionOf(route, x, P) then Ahead
      else PosIn(recs, i, sub, x)
    case Flip(_) => Behind
    case _ => Ahead
  }

  function NewPass(h: History): (h': History) { h.(stale := {}, lost := {}) }

  function NextRecord(pc: Pc): (pc': Pc)
    requires pc.Copy?
  {
    pc.(i := pc.i + 1, sub := Insert)
  }

  predicate CopyReady(route: Router, s: State)
    requires s.log != []
  {
    s.pc.Copy? ==>
      Durable(s).rs.Some? &&
      (s.pc.i < |s.pc.recs| ==> Home(route, Durable(s).rs.value.to, s.pc.recs[s.pc.i].0) in s.parts)
  }

  /** Which coordinator steps are enabled; `recs` is what a scan would return. */
  predicate CoordEnabled(route: Router, s: State, recs: seq<(Id, Record)>)
    requires s.log != []
  {
    var d := Durable(s);
    match s.pc
    case Idle => false
    case DropNew(_, _) => true
    case CreateNew(goal, p, resume) => p < goal ==> resume || Phys(d.cur.gen + 1, p) !in s.parts
    case SetState(_) => true
    case Grace(_) => d.rs.Some? && Drained(route, s)
    case Scan(_, _, p) =>
      && d.rs.Some?
      && (p < d.rs.value.from.P ==>
            && Phys(d.rs.value.from.gen, p) in s.parts
            && IsScan(recs, s.parts[Phys(d.rs.value.from.gen, p)]))
    case Copy(_, _, _, _, _, _) => CopyReady(route, s)
    case Flip(_) => d.rs.Some?
    case Gate(_) => d.rs.Some? && AllCaught(s)
    case DropOld(_, _, _) => true
    case FinClear(_) => true
    case Sweep(_, _, _, _, _) => true
    case AbortClear => d.rs.Some?
    case AbortDrop(_, _) => true
  }

  /** What one step of the copy loop of `reshardCopyPass` writes: insert the
      record if the new generation lacks it, then, if the old generation has lost
      it meanwhile, delete it again. */
  function CopyParts(route: Router, s: State): (parts: Partitions)
    requires s.log != [] && s.pc.Copy? && s.pc.i < |s.pc.recs| && Durable(s).rs.Some?
    requires Home(route, Durable(s).rs.value.to, s.pc.recs[s.pc.i].0) in s.parts
  {
    var (x, v) := s.pc.recs[s.pc.i];
    var ph := Home(route, Durable(s).rs.value.to, x);
    match s.pc.sub
    case Insert => if Read(s.parts, ph, x).None? then Write(s.parts, ph, x, Some(v)) else s.parts
    case Check => s.parts
    case Guard => Write(s.parts, ph, x, None)
  }

  function CopyPc(route: Router, s: State): (pc: Pc)
    requires s.log != [] && s.pc.Copy? && s.pc.i < |s.pc.recs| && Durable(s).rs.Some?
  {
    var x := s.pc.recs[s.pc.i].0;
    match s.pc.sub
    case Insert => s.pc.(sub := Check)
    case Check => if Read(s.parts, Phys(Durable(s).rs.value.from.gen, s.pc.p), x).Some? then NextRecord(s.pc) else s.pc.(sub := Guard)
    case Guard => NextRecord(s.pc)
  }

  /** The partition a drop step removes, if it is one. */
  function Victim(s: State): (v: Option<Phys>)
    requires s.log != []
  {
    match s.pc
    case DropNew(goal, p) => if p < goal then Some(Phys(Durable(s).cur.gen + 1, p)) else None
    case DropOld(_, gone, p) => if p < gone.P then Some(Phys(gone.gen, p)) else None
    case AbortDrop(gone, p) => if p < gone.P then Some(Phys(gone.gen, p)) else None
    case Sweep(_, _, g, p, miss) =>
      if g <= Durable(s).cur.gen + 1 && g != Durable(s).cur.gen && p < MAX_PARTITIONS && miss < GAP_TOLERANCE &&
         Phys(g, p) in s.parts
      then Some(Phys(g, p)) else None
    case _ => None
  }

  function CoordParts(route: Router, s: State): (parts: Partitions)
    requires s.log != [] && CopyReady(route, s)
  {
    if Victim(s).Some? then s.parts - {Victim(s).value}
    else if s.pc.CreateNew? && s.pc.p < s.pc.goal && Phys(Durable(s).cur.gen + 1, s.pc.p) !in s.parts then
      s.parts[Phys(Durable(s).cur.gen + 1, s.pc.p) := map[]]
    else if s.pc.Copy? && s.pc.i < |s.pc.recs| then CopyParts(route, s)
    else s.parts
  }

  function CoordLog(s: State): (log: seq<Catalog>)
    requires s.log != [] && (s.pc.Flip? ==> Durable(s).rs.Some?)
  {
    var d := Durable(s);
    match s.pc
    case SetState(goal) => s.log + [Catalog(d.cur, Some(Pins(d.cur, Route(goal, d.cur.gen + 1))))]
    case Flip(_) => s.log + [Catalog(d.rs.value.to, d.rs)]
    case Gate(_) => s.log + [Catalog(d.cur, None)]
    case FinClear(_) => s.log + [Catalog(d.cur, None)]
    case AbortClear => s.log + [Catalog(d.cur, None)]
    case _ => s.log
  }

  function CoordPc(route: Router, s: State, recs: seq<(Id, Record)>): (pc: Pc)
    requires s.log != [] && CoordEnabled(route, s, recs)
  {
    var d := Durable(s);
    match s.pc
    case DropNew(goal, p) => if p < goal then DropNew(goal, p + 1) else CreateNew(goal, 0, false)
    case CreateNew(goal, p, resume) =>
      if p < goal then CreateNew(goal, p + 1, resume) else if resume then Scan(goal, 0, 0) else SetState(goal)
    case SetState(goal) => Grace(goal)
    case Grace(goal) => Scan(goal, 0, 0)
    case Scan(goal, pass, p) =>
      if p < d.rs.value.from.P then Copy(goal, pass, p, recs, 0, Insert)
      else if pass == 0 then Scan(goal, 1, 0) else Flip(goal)
    case Copy(goal, pass, p, rs, i, sub) => if i < |rs| then CopyPc(route, s) else Scan(goal, pass, p + 1)
    case Flip(goal) => Gate(goal)
    case Gate(goal) => DropOld(goal, d.rs.value.from, 0)
    case DropOld(goal, gone, p) => if p < gone.P then DropOld(goal, gone, p + 1) else Idle
    case FinClear(goal) => Sweep(goal, true, 0, 0, 0)
    case Sweep(goal, resume, g, p, miss) =>
      if g > d.cur.gen + 1 then (if resume then Resolve(d, goal) else Idle)
      else if g == d.cur.gen || p >= MAX_PARTITIONS || miss >= GAP_TOLERANCE then Sweep(goal, resume, g + 1, 0, 0)
      else Sweep(goal, resume, g, p + 1, if Phys(g, p) in s.parts then 0 else miss + 1)
    case AbortClear => AbortDrop(d.rs.value.to, 0)
    case AbortDrop(gone, p) => if p < gone.P then AbortDrop(gone, p + 1) else Idle
  }

  function Mark(ids: set<Id>, x: Id, on: bool): (r: set<Id>) { if on then ids + {x} else ids - {x} }

  /** The value clients were last told, or have landed. */
  function ExpectedOf(s: State, x: Id): (v: Option<Record>)
  {
    if x in s.writers && s.writers[x].landed then Effect(s.writers[x].op) else Acked(s, x)
  }

  /** One step of the copy loop: inserting an outdated copy, or guard-deleting an id
      that is back, does harm. */
  function CopyHistory(route: Router, s: State): (h: History)
    requires s.log != [] && s.pc.Copy? && s.pc.i < |s.pc.recs| && Durable(s).rs.Some?
  {
    var x := s.pc.recs[s.pc.i].0;
    var from, to := Home(route, Durable(s).rs.value.from, x), Home(route, Durable(s).rs.value.to, x);
    match s.pc.sub
    case Insert => s.h.(dirty := if x in s.h.stale then s.h.dirty + {x} else s.h.dirty, stale := s.h.stale - {x})
    case Check => s.h
    case Guard => s.h.(dirty := s.h.dirty - {x}, lost := Mark(s.h.lost, x, Read(s.parts, from, x).Some?))
  }

  /** The ids a late write has left in the new generation with another value. */
  function LateDirt(route: Router, s: State, to: Route): (ids: set<Id>)
    requires s.log != []
  {
    set x | x in s.h.late &&
      Read(s.parts, Home(route, to, x), x).Some? &&
      Read(s.parts, Home(route, to, x), x) != Read(s.parts, Home(route, Durable(s).cur, x), x)
  }

  /** The flip: ids harmed by the copy now read wrong, unless what they read happens
      to be the last write. */
  function FlipHistory(route: Router, s: State): (h: History)
    requires s.log != [] && Durable(s).rs.Some?
  {
    var harmed := s.h.dirty + s.h.lost;
    s.h.(wrongOld := s.h.wrong,
         wrong := (s.h.wrong - harmed) +
                  set x | x in harmed && Read(s.parts, Home(route, Durable(s).rs.value.to, x), x) != ExpectedOf(s, x))
  }

  function CoordHistory(route: Router, s: State): (h: History)
    requires s.log != [] && (s.pc.Scan? || s.pc.Copy? || s.pc.Flip? ==> Durable(s).rs.Some?)
  {
    var d := Durable(s);
    if Victim(s).Some? then
      // what is dropped with a partition of the generation being built harms nobody
      (if PreCutover(d) && Victim(s).value.gen == d.rs.value.to.gen
       then s.h.(dirty := set x | x in s.h.dirty && Home(route, d.rs.value.to, x) != Victim(s).value) else s.h)
    else
      match s.pc
      case CreateNew(goal, p, resume) => if p >= goal && resume then NewPass(s.h) else s.h
      case SetState(goal) => NewPass(s.h).(dirty := LateDirt(route, s, Route(goal, d.cur.gen + 1)), late := {})
      case Grace(_) => NewPass(s.h)
      case Scan(_, pass, p) => if p >= d.rs.value.from.P && pass == 0 then NewPass(s.h) else s.h
      case Copy(_, _, _, recs, i, _) => if i < |recs| then CopyHistory(route, s) else s.h
      case Flip(_) => FlipHistory(route, s)
      case _ => s.h
  }

  /** One step of the coordinator; `recs` is what a scan returns. */
  function CoordStep(route: Router, s: State, recs: seq<(Id, Record)>): (s': State)
    requires s.log != [] && CoordEnabled(route, s, recs)
  {
    s.(parts := CoordParts(route, s), log := CoordLog(s), pc := CoordPc(route, s, recs), h := CoordHistory(route, s))
  }

  /** The id the coordinator has inserted and not yet guarded, if any. */
  predicate MidCopy(s: State, x: Id)
  {
    s.pc.Copy? && s.pc.i < |s.pc.recs| && s.pc.recs[s.pc.i].0 == x && s.pc.sub != Insert
  }

  /** A crash, or any failing call: the operation is abandoned where it stands.  A
      deleted id copied and not yet guarded keeps its copy. */
  function CrashStep(route: Router, s: State): (s': State)
    requires s.log != []
  {
    var d := Durable(s);
    var h := NewPass(s.h);
    if d.rs.Some? && s.pc.Copy? && s.pc.i < |s.pc.recs| && s.pc.sub != Insert &&
       Read(s.parts, Home(route, d.rs.value.from, s.pc.recs[s.pc.i].0), s.pc.recs[s.pc.i].0).None?
    then
      var x := s.pc.recs[s.pc.i].0;
      s.(pc := Idle, h := h.(dirty := Mark(h.dirty, x, Read(s.parts, Home(route, d.rs.value.to, x), x).Some?)))
    else s.(pc := Idle, h := h)
  }

  // ---------- clients ----------

  predicate WriteDone(w: Writer) { w.leg == 2 || (w.leg == 1 && w.target.None?) }

  /** The live leg of `applyDualWrite`; the partition must exist or the call fails. */
  predicate LiveEnabled(s: State, x: Id)
  {
    x in s.writers && s.writers[x].leg == 0 && s.writers[x].live in s.parts
  }

  predicate Reaches(w: Writer, ph: Phys) { w.live == ph || w.target == Some(ph) }

  /** A write completes.  It harms its id where it did not reach a generation that
      matters and left another value there. */
  function Completed(route: Router, d: Catalog, parts: Partitions, pc: Pc, x: Id, w: Writer, h: History): (h': History)
  {
    var here := Home(route, d.cur, x);
    var h1 := h.(wrong := Mark(h.wrong, x, !Reaches(w, here) && Read(parts, here, x) != Effect(w.op)));
    if d.rs.None? then h1
    else
      var from, to := Home(route, d.rs.value.from, x), Home(route, d.rs.value.to, x);
      if PreCutover(d) then
        var f, t, pos := Read(parts, from, x), Read(parts, to, x), PosOf(route, pc, d.rs.value.from.P, x);
        var missed := !Reaches(w, to);
        h1.(dirty := Mark(h.dirty, x, missed && t.Some? && t != f),
            stale := Mark(h.stale, x, missed && t.None? && f.Some? && pos.Todo? && pos.v != f.value),
            lost := Mark(h.lost, x, missed && t.None? && f.Some? && (pos.Inserted? || pos.Guarding? || pos.Behind?)))
      else
        h1.(wrongOld := Mark(h.wrongOld, x, !Reaches(w, from) && Read(parts, from, x) != Effect(w.op)))
  }

  function LiveStep(route: Router, s: State, x: Id): (s': State)
    requires s.log != [] && LiveEnabled(s, x)
  {
    var w := s.writers[x];
    var parts := Write(s.parts, w.live, x, Effect(w.op));
    s.(parts := parts, writers := s.writers[x := w.(leg := 1, landed := true)],
       h := if w.target.None? then Completed(route, Durable(s), parts, s.pc, x, w, s.h) else s.h)
  }

  /** `ph` belongs to the entry `t` and does not own `x`. */
  predicate Misplaced(route: Router, t: Route, ph: Phys, x: Id)
  {
    ph.gen == t.gen && ph.p < t.P && ph != Home(route, t, x)
  }

  /** The generation a fresh reshard is creating. */
  function Creating(s: State): (t: Option<Route>)
    requires s.log != []
  {
    if (s.pc.CreateNew? && !s.pc.resume) || s.pc.SetState? then Some(Route(s.pc.goal, Durable(s).cur.gen + 1)) else None
  }

  predicate StrayAt(route: Router, s: State, ph: Phys, x: Id)
    requires s.log != []
  {
    var d := Durable(s);
    || Misplaced(route, d.cur, ph, x)
    || (PreCutover(d) && Misplaced(route, d.rs.value.to, ph, x))
    || (Creating(s).Some? && Misplaced(route, Creating(s).value, ph, x))
  }

  /** The second leg.  A missing partition is tolerated only on the retiring
      (lower) generation; otherwise the leg fails and the write stays in flight. */
  predicate TargetEnabled(s: State, x: Id)
  {
    && x in s.writers && s.writers[x].leg == 1 && s.writers[x].target.Some?
    && (s.writers[x].target.value in s.parts || s.writers[x].target.value.gen < s.writers[x].live.gen)
  }

  /** A target leg that lands may be late or astray: its write resolved its targets
      from a catalog entry that is no longer the last. */
  function Landed(route: Router, s: State, ph: Phys, x: Id, op: Op): (h: History)
    requires s.log != []
  {
    s.h.(late := if Durable(s).rs.None? && ph.gen == Durable(s).cur.gen + 1 then s.h.late + {x} else s.h.late,
         stray := if op.Upsert? && StrayAt(route, s, ph, x) then s.h.stray + {x} else s.h.stray)
  }

  function TargetStep(route: Router, s: State, x: Id): (s': State)
    requires s.log != [] && TargetEnabled(s, x)
  {
    var w := s.writers[x];
    var ph := w.target.value;
    var parts := if ph in s.parts then Write(s.parts, ph, x, Effect(w.op)) else s.parts;
    var h := if ph in s.parts then Landed(route, s, ph, x, w.op) else s.h;
    s.(parts := parts, writers := s.writers[x := w.(leg := 2)],
       h := Completed(route, Durable(s), parts, s.pc, x, w, h))
  }

  function AckStep(s: State, x: Id): (s': State)
    requires x in s.writers
  {
    var w := s.writers[x];
    s.(writers := s.writers - {x},
       acked := if w.op.Upsert? then s.acked[x := w.op.v] else s.acked - {x})
  }

  // ---------- all steps ----------

  datatype Step =
    | StartWrite(n: Node, x: Id, op: Op)
    | LiveLeg(x: Id)
    | TargetLeg(x: Id)
    | Ack(x: Id)
    | Retry(n: Node, x: Id)     // a leg failed: the client re-resolves and starts over
    | GiveUp(x: Id)             // the live leg failed and nothing has landed
    | NodeApply(n: Node)
    | BeginReshard(goal: nat)
    | BeginAbort
    | BeginCleanup
    | Coord(recs: seq<(Id, Record)>)
    | Crash

  predicate Routable(s: State, n: Node)
  {
    n in s.at && s.at[n] < |s.log| && Partitioned(View(s, n))
  }

  predicate Enabled(route: Router, s: State, a: Step)
  {
    s.log != [] &&
    match a
    case StartWrite(n, x, _) => Routable(s, n) && x !in s.writers
    case LiveLeg(x) => LiveEnabled(s, x)
    case TargetLeg(x) => TargetEnabled(s, x)
    case Ack(x) => x in s.writers && WriteDone(s.writers[x])
    case Retry(n, x) => Routable(s, n) && x in s.writers
    case GiveUp(x) => x in s.writers && !s.writers[x].landed
    case NodeApply(n) => n in s.at && s.at[n] + 1 < |s.log|
    case BeginReshard(_) => s.pc.Idle?
    case BeginAbort => s.pc.Idle?
    case BeginCleanup => s.pc.Idle?
    case Coord(recs) => CoordEnabled(route, s, recs)
    case Crash => !s.pc.Idle?
  }

  function Do(route: Router, s: State, a: Step): (s': State)
    requires Enabled(route, s, a)
  {
    match a
    case StartWrite(n, x, op) => s.(writers := s.writers[x := Attempt(route, View(s, n), x, op, false)])
    case LiveLeg(x) => LiveStep(route, s, x)
    case TargetLeg(x) => TargetStep(route, s, x)
    case Ack(x) => AckStep(s, x)
    case Retry(n, x) =>
      s.(writers := s.writers[x := Attempt(route, View(s, n), x, s.writers[x].op, s.writers[x].landed)])
    case GiveUp(x) => s.(writers := s.writers - {x})
    case NodeApply(n) => s.(at := s.at[n := s.at[n] + 1])
    case BeginReshard(goal) => s.(pc := StartReshard(Durable(s), goal))
    case BeginAbort => s.(pc := StartAbort(Durable(s)))
    case BeginCleanup => s.(pc := Sweep(0, false, 0, 0, 0))
    case Coord(recs) => CoordStep(route, s, recs)
    case Crash => CrashStep(route, s)
  }

  /** A stable collection: every point in its partition and acknowledged. */
  ghost predicate Init(route: Router, s: State)
  {
    && |s.log| == 1 && 1 < s.log[0].cur.P && s.log[0].rs == None
    && (forall n :: n in s.at ==> s.at[n] == 0)
    && s.writers == map[] && s.pc == Idle && s.h == History({}, {}, {}, {}, {}, {}, {})
    && HasAll(s.parts, s.log[0].cur)
    && (forall p, x :: 0 <= p < s.log[0].cur.P && x in s.parts[Phys(s.log[0].cur.gen, p)] ==>
          p == PartitionOf(route, x, s.log[0].cur.P))
    && (forall x :: Read(s.parts, Home(route, s.log[0].cur, x), x) == Acked(s, x))
  }

  ghost predicate IsRun(route: Router, run: seq<State>, steps: seq<Step>)
  {
    && |run| == |steps| + 1
    && Init(route, run[0])
    && forall i :: 0 <= i < |steps| ==> Enabled(route, run[i], steps[i]) && run[i + 1] == Do(route, run[i], steps[i])
  }

  /** Consecutive states, from wherever. */
  ghost predicate IsPath(route: Router, run: seq<State>, steps: seq<Step>)
  {
    && |run| == |steps| + 1
    && forall i :: 0 <= i < |steps| ==> Enabled(route, run[i], steps[i]) && run[i + 1] == Do(route, run[i], steps[i])
  }

  /** Steps of clients and nodes. */
  predicate IsOther(a: Step)
  {
    !a.BeginReshard? && !a.BeginAbort? && !a.BeginCleanup? && !a.Coord? && !a.Crash?
  }

  /** One operation begins and nothing interrupts it. */
  predicate Undisturbed(steps: seq<Step>)
  {
    forall i :: 0 < i < |steps| ==> IsOther(steps[i]) || steps[i].Coord?
  }

  /** Some run of clients, nodes and coordinator ends in `s`. */
  ghost predicate Reachable(route: Router, s: State)
  {
    exists run, steps :: IsRun(route, run, steps) && run[|run| - 1] == s
  }
}
