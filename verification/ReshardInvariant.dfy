/** The inductive invariant of the reshard machine: the shape of the catalog log and
    of the partitions, plus a statement about one id at a time.  What the protocol
    does to one id is a small machine of its own (`Local`); every global step either
    leaves an id's local state alone or takes it through one local step. */
module ReshardInvariant {
  import opened Store
  import opened ReshardMachine

  // ---------- the catalog log ----------

  predicate GoodPins(r: Pins)
  {
    1 < r.from.P && 1 < r.to.P <= MAX_PARTITIONS && r.to.gen == r.from.gen + 1
  }

  predicate GoodCatalog(d: Catalog)
  {
    1 < d.cur.P && (d.rs.Some? ==> GoodPins(d.rs.value) && (d.cur == d.rs.value.from || d.cur == d.rs.value.to))
  }

  /** A generation number names one entry, whether it is routed to or copied from.
      Only the target of an aborted reshard may share its number with a later one. */
  predicate Agree(a: Catalog, b: Catalog)
  {
    && (a.cur.gen == b.cur.gen ==> a.cur == b.cur)
    && (a.rs.Some? && a.rs.value.from.gen == b.cur.gen ==> a.rs.value.from == b.cur)
    && (b.rs.Some? && b.rs.value.from.gen == a.cur.gen ==> b.rs.value.from == a.cur)
    && (a.rs.Some? && b.rs.Some? && a.rs.value.from.gen == b.rs.value.from.gen ==> a.rs.value.from == b.rs.value.from)
  }

  /** Every entry is sound, entries agree with the last one, and none is ahead of it. */
  ghost predicate LogOk(log: seq<Catalog>)
  {
    && log != []
    && forall k :: 0 <= k < |log| ==>
         GoodCatalog(log[k]) && Agree(log[k], log[|log| - 1]) && log[k].cur.gen <= log[|log| - 1].cur.gen
  }

  /** Generations only grow along the log. */
  ghost predicate Monotone(log: seq<Catalog>)
  {
    forall j, k :: 0 <= j <= k < |log| ==> log[j].cur.gen <= log[k].cur.gen
  }

  // ---------- shape ----------

  /** Nothing but late writes is in the partitions created so far. */
  predicate OnlyLate(parts: Partitions, gen: nat, hi: nat, late: set<Id>)
  {
    forall q :: 0 <= q < hi ==> Phys(gen, q) in parts && parts[Phys(gen, q)].Keys <= late
  }

  predicate Absent(parts: Partitions, gen: nat, lo: nat, hi: nat)
  {
    forall q :: lo <= q < hi ==> Phys(gen, q) !in parts
  }

  predicate Building(d: Catalog, parts: Partitions, goal: nat)
  {
    PreCutover(d) && d.rs.value.to.P == goal && HasAll(parts, d.rs.value.to)
  }

  predicate GoodRecs(route: Router, recs: seq<(Id, Record)>, P: nat, p: nat, stray: set<Id>)
  {
    && (forall j, k :: 0 <= j < k < |recs| ==> recs[j].0 != recs[k].0)
    && (forall j :: 0 <= j < |recs| && recs[j].0 !in stray ==> PartitionOf(route, recs[j].0, P) == p)
  }

  predicate GoodPc(route: Router, d: Catalog, parts: Partitions, pc: Pc, h: History)
  {
    match pc
    case Idle => true
    case DropNew(goal, p) => d.rs.None? && 1 < goal <= MAX_PARTITIONS && p <= goal && Absent(parts, d.cur.gen + 1, 0, p)
    case CreateNew(goal, p, resume) =>
      && 1 < goal <= MAX_PARTITIONS && p <= goal
      && (if resume then
            PreCutover(d) && d.rs.value.to == Route(goal, d.cur.gen + 1) && HasAll(parts, Route(p, d.cur.gen + 1))
          else
            d.rs.None? && OnlyLate(parts, d.cur.gen + 1, p, h.late) && Absent(parts, d.cur.gen + 1, p, goal))
    case SetState(goal) => d.rs.None? && 1 < goal <= MAX_PARTITIONS && OnlyLate(parts, d.cur.gen + 1, goal, h.late)
    case Grace(goal) => Building(d, parts, goal)
    case Scan(goal, pass, p) => Building(d, parts, goal) && pass <= 1 && p <= d.rs.value.from.P
    case Copy(goal, pass, p, recs, i, sub) =>
      && Building(d, parts, goal) && pass <= 1 && p < d.rs.value.from.P
      && i <= |recs| && (sub != Insert ==> i < |recs|)
      && GoodRecs(route, recs, d.rs.value.from.P, p, h.stray)
    case Flip(goal) => Building(d, parts, goal)
    case Gate(goal) => PostCutover(d) && d.cur.P == goal
    case DropOld(goal, gone, p) => d.rs.None? && d.cur.P == goal && gone.gen < d.cur.gen && p <= gone.P
    case FinClear(goal) => PostCutover(d) && 1 < goal <= MAX_PARTITIONS
    case Sweep(goal, resume, g, p, miss) => resume ==> d.rs.None? && 1 < goal <= MAX_PARTITIONS
    case AbortClear => PreCutover(d)
    case AbortDrop(gone, p) => d.rs.None? && gone.gen == d.cur.gen + 1 && p <= gone.P
  }

  /** Every node routes as the durable entry does. */
  predicate AllOn(s: State)
    requires s.log != []
  {
    forall n :: n in s.at ==> s.at[n] < |s.log| && View(s, n).cur == Durable(s).cur
  }

  ghost predicate Shape(route: Router, s: State)
  {
    && s.log != [] && LogOk(s.log) && Monotone(s.log)
    && (forall n :: n in s.at ==> s.at[n] < |s.log|)
    && HasAll(s.parts, Durable(s).cur)
    && GoodPc(route, Durable(s), s.parts, s.pc, s.h)
    && (s.pc.DropOld? ==> AllOn(s))
  }

  /** A write in flight addresses what some catalog entry told it to. */
  ghost predicate FromLog(route: Router, log: seq<Catalog>, x: Id, w: Writer)
  {
    exists k :: 0 <= k < |log| && DualTargets(route, log[k], x) == (Some(w.live), w.target)
  }

  ghost predicate WritersFromLog(route: Router, s: State)
  {
    forall x :: x in s.writers ==> FromLog(route, s.log, x, s.writers[x])
  }

  /** Every point, strays aside, sits in the partition that owns it. */
  ghost predicate PlacedAll(route: Router, parts: Partitions, t: Route, stray: set<Id>)
  {
    forall p, x {:trigger Read(parts, Phys(t.gen, p), x)} ::
      0 <= p < t.P && x !in stray && Read(parts, Phys(t.gen, p), x).Some? ==> p == PartitionOf(route, x, t.P)
  }

  ghost predicate Placement(route: Router, s: State)
    requires s.log != []
  {
    && PlacedAll(route, s.parts, Durable(s).cur, s.h.stray)
    && (PreCutover(Durable(s)) ==> PlacedAll(route, s.parts, Durable(s).rs.value.to, s.h.stray))
    && (Creating(s).Some? ==> PlacedAll(route, s.parts, Creating(s).value, s.h.stray))
  }

  lemma WritePlaced(route: Router, parts: Partitions, t: Route, ph: Phys, x: Id, v: Option<Record>, stray: set<Id>, stray': set<Id>)
    requires PlacedAll(route, parts, t, stray) && ph in parts && stray <= stray'
    requires v.Some? && Misplaced(route, t, ph, x) ==> x in stray'
    ensures PlacedAll(route, Write(parts, ph, x, v), t, stray')
  {
  }

  // ---------- one id ----------

  datatype Phase = Stable | Before | After

  /** The protocol seen from one id: the partitions that may hold it and what they
      hold, its write in flight, and what happened to it. */
  datatype Local = Local(phase: Phase, oldHere: bool,
                         curHome: Phys, fromHome: Phys, toHome: Phys,
                         cur: Option<Record>, from: Option<Record>, to: Option<Record>,
                         w: Option<Writer>, acked: Option<Record>, pos: Pos,
                         dirty: bool, stale: bool, lost: bool, wrong: bool, wrongOld: bool, stray: bool)

  function PhaseOf(d: Catalog): (ph: Phase)
  {
    if d.rs.None? then Stable else if PreCutover(d) then Before else After
  }

  function FromOf(d: Catalog): (t: Route) { if d.rs.None? then d.cur else d.rs.value.from }

  function ToOf(d: Catalog): (t: Route) { if d.rs.None? then d.cur else d.rs.value.to }

  function LocalOf(route: Router, s: State, x: Id): (l: Local)
    requires s.log != []
  {
    var d := Durable(s);
    var c, f, t := Home(route, d.cur, x), Home(route, FromOf(d), x), Home(route, ToOf(d), x);
    Local(PhaseOf(d), f in s.parts, c, f, t, Read(s.parts, c, x), Read(s.parts, f, x), Read(s.parts, t, x),
          if x in s.writers then Some(s.writers[x]) else None, Acked(s, x), PosOf(route, s.pc, FromOf(d).P, x),
          x in s.h.dirty, x in s.h.stale, x in s.h.lost, x in s.h.wrong, x in s.h.wrongOld, x in s.h.stray)
  }

  /** How the three homes of an id relate in each phase. */
  predicate Coherent(l: Local)
  {
    match l.phase
    case Stable => l.fromHome == l.curHome && l.toHome == l.curHome && l.from == l.cur && l.to == l.cur
    case Before => l.fromHome == l.curHome && l.from == l.cur && l.toHome.gen == l.fromHome.gen + 1
    case After => l.toHome == l.curHome && l.to == l.cur && l.toHome.gen == l.fromHome.gen + 1
  }

  /** No write of the id has landed without completing. */
  predicate Settled(w: Option<Writer>)
  {
    w.None? || !w.value.landed || WriteDone(w.value)
  }

  function Expected(l: Local): (v: Option<Record>)
  {
    if l.w.Some? && l.w.value.landed then Effect(l.w.value.op) else l.acked
  }

  /** What the log says of the targets of a write. */
  predicate Proper(l: Local, w: Writer)
  {
    && w.live.gen <= l.curHome.gen
    && (w.live.gen == l.curHome.gen ==> w.live == l.curHome)
    && (l.phase == After && w.live.gen == l.fromHome.gen ==> w.live == l.fromHome)
    && (w.target.Some? ==> w.target.value.gen == w.live.gen + 1 || w.live.gen == w.target.value.gen + 1)
  }

  /** Legs are counted, and a leg that is done has landed. */
  predicate LegInv(l: Local)
  {
    l.w.Some? ==> l.w.value.leg <= 2 && (l.w.value.leg == 2 ==> l.w.value.target.Some?) && (1 <= l.w.value.leg ==> l.w.value.landed)
  }

  predicate WriterInv(l: Local)
  {
    l.w.Some? ==>
      var w := l.w.value;
      && (1 <= w.leg && w.live == l.curHome ==> l.cur == Effect(w.op))
      && (1 <= w.leg && w.live == l.fromHome && l.phase == After && l.oldHere ==> l.from == Effect(w.op))
  }

  /** A settled id reads as expected where it is not marked, and only there. */
  predicate VisInv(l: Local)
  {
    Settled(l.w) ==>
      && (l.wrong <==> l.cur != Expected(l))
      && (l.phase == After && l.oldHere ==> (l.wrongOld <==> l.from != Expected(l)))
  }

  predicate Passed(pos: Pos) { pos.Inserted? || pos.Guarding? || pos.Behind? }

  predicate Unguarded(l: Local) { (l.pos.Inserted? || l.pos.Guarding?) && l.from.None? }

  /** The copy of a settled id differs from the original exactly where it is marked. */
  predicate CopyInv(l: Local)
  {
    l.phase == Before && Settled(l.w) ==>
      && (!Unguarded(l) ==> (l.dirty <==> l.to.Some? && l.to != l.from))
      && (l.stale <==> l.pos.Todo? && l.to.None? && l.from.Some? && l.from.value != l.pos.v)
      && (l.lost <==> Passed(l.pos) && l.to.None? && l.from.Some?)
  }

  predicate LocalInv(l: Local)
  {
    Coherent(l) && LegInv(l) && (l.stray || (WriterInv(l) && VisInv(l) && CopyInv(l)))
  }

  ghost predicate Inv(route: Router, s: State)
  {
    && s.log != [] && Shape(route, s) && WritersFromLog(route, s) && Placement(route, s)
    && forall x :: LocalInv(LocalOf(route, s, x))
  }

  // ---------- local steps ----------

  function PutAt(l: Local, ph: Phys, v: Option<Record>): (l': Local)
  {
    l.(cur := if ph == l.curHome then v else l.cur,
       from := if ph == l.fromHome then v else l.from,
       to := if ph == l.toHome then v else l.to)
  }

  /** `Completed`, seen from the id. */
  function CompletedLocal(l: Local, w: Writer): (l': Local)
  {
    var l1 := l.(wrong := !Reaches(w, l.curHome) && l.cur != Effect(w.op));
    match l.phase
    case Stable => l1
    case Before =>
      var missed := !Reaches(w, l.toHome);
      l1.(dirty := missed && l.to.Some? && l.to != l.from,
          stale := missed && l.to.None? && l.from.Some? && l.pos.Todo? && l.pos.v != l.from.value,
          lost := missed && l.to.None? && l.from.Some? && Passed(l.pos))
    case After => l1.(wrongOld := !Reaches(w, l.fromHome) && l.from != Effect(w.op))
  }

  /** What a completing write has left in every generation it reached. */
  predicate Delivered(l: Local, w: Writer)
  {
    && (Reaches(w, l.curHome) ==> l.cur == Effect(w.op))
    && (l.phase == After && l.oldHere && Reaches(w, l.fromHome) ==> l.from == Effect(w.op))
    && (l.phase == Before && Reaches(w, l.toHome) ==> l.to == Effect(w.op) && l.from == Effect(w.op))
  }

  predicate JustCompleted(l: Local, w: Writer)
  {
    l.w.Some? && l.w.value.landed && WriteDone(l.w.value) && l.w.value.op == w.op && Delivered(l, w)
  }

  lemma CompletedVis(l: Local, w: Writer)
    requires Coherent(l) && JustCompleted(l, w)
    ensures VisInv(CompletedLocal(l, w))
  {
  }

  lemma CompletedCopy(l: Local, w: Writer)
    requires Coherent(l) && JustCompleted(l, w)
    ensures CopyInv(CompletedLocal(l, w))
  {
    hide VisInv;
    if l.phase == Before {
      var l' := CompletedLocal(l, w);
      assert l'.to == l.to && l'.from == l.from && l'.pos == l.pos;
      if Reaches(w, l.toHome) {
        assert l.to == l.from;
      }
    }
  }

  lemma CompletedKeeps(l: Local, w: Writer)
    requires Coherent(l) && LegInv(l) && (l.stray || (WriterInv(l) && JustCompleted(l, w)))
    ensures LocalInv(CompletedLocal(l, w))
  {
    hide VisInv, CopyInv;
    if !l.stray {
      CompletedVis(l, w);
      CompletedCopy(l, w);
    }
  }

  function LiveLocal(l: Local): (l': Local)
    requires l.w.Some?
  {
    var w := l.w.value;
    var l1 := PutAt(l, w.live, Effect(w.op)).(w := Some(w.(leg := 1, landed := true)));
    if w.target.None? then CompletedLocal(l1, w) else l1
  }

  lemma LiveLocalKeeps(l: Local)
    requires LocalInv(l) && l.w.Some? && l.w.value.leg == 0 && Proper(l, l.w.value)
    ensures LocalInv(LiveLocal(l))
  {
    hide CompletedLocal;
    var w := l.w.value;
    var l1 := PutAt(l, w.live, Effect(w.op)).(w := Some(w.(leg := 1, landed := true)));
    if w.target.None? { CompletedKeeps(l1, w); }
  }

  function TargetLocal(l: Local, present: bool, stray: bool): (l': Local)
    requires l.w.Some? && l.w.value.target.Some?
  {
    var w := l.w.value;
    CompletedLocal((if present then PutAt(l, w.target.value, Effect(w.op)) else l).(
                     w := Some(w.(leg := 2)), stray := l.stray || stray), w)
  }

  lemma TargetLocalKeeps(l: Local, present: bool, stray: bool)
    requires LocalInv(l) && l.w.Some? && l.w.value.leg == 1 && l.w.value.target.Some? && Proper(l, l.w.value)
    requires !present ==>
               && l.w.value.target.value.gen < l.w.value.live.gen && l.w.value.target.value != l.curHome
               && (l.oldHere ==> l.w.value.target.value != l.fromHome)
    ensures LocalInv(TargetLocal(l, present, stray))
  {
    hide CompletedLocal;
    var w := l.w.value;
    var l1 := (if present then PutAt(l, w.target.value, Effect(w.op)) else l).(w := Some(w.(leg := 2)), stray := l.stray || stray);
    CompletedKeeps(l1, w);
  }

  lemma InsertLocalKeeps(l: Local)
    requires LocalInv(l) && l.phase == Before && l.pos.Todo?
    ensures LocalInv(l.(to := if l.to.None? then Some(l.pos.v) else l.to, pos := Inserted,
                        dirty := l.dirty || l.stale, stale := false))
  {
  }

  lemma CheckLocalKeeps(l: Local)
    requires LocalInv(l) && l.phase == Before && l.pos.Inserted?
    ensures LocalInv(l.(pos := if l.from.Some? then Behind else Guarding))
  {
  }

  lemma GuardLocalKeeps(l: Local)
    requires LocalInv(l) && l.phase == Before && l.pos.Guarding?
    ensures LocalInv(l.(to := None, pos := Behind, dirty := false, lost := l.from.Some?))
  {
  }

  /** The flip: an id the second pass is past holds the same value in both
      generations exactly if it is neither dirty nor lost. */
  lemma FlipLocalKeeps(l: Local)
    requires LocalInv(l) && l.phase == Before && l.pos.Behind? && l.oldHere
    requires l.w.Some? ==> Proper(l, l.w.value)
    ensures LocalInv(l.(phase := After, curHome := l.toHome, cur := l.to, pos := Ahead,
                        wrongOld := l.wrong, wrong := if l.dirty || l.lost then l.to != Expected(l) else l.wrong))
  {
  }
}
