/** Coordinator steps, and its crashes, keep the reshard invariant. */
module ReshardCoordinator {
  import opened Store
  import opened ReshardMachine
  import opened ReshardInvariant
  import opened ReshardClients

  // ---------- catalog appends ----------

  lemma AppendLog(log: seq<Catalog>, c: Catalog)
    requires LogOk(log) && Monotone(log) && GoodCatalog(c)
    requires log[|log| - 1].cur.gen <= c.cur.gen
    requires c.cur == log[|log| - 1].cur || c.cur.gen == log[|log| - 1].cur.gen + 1
    requires c.rs.Some? ==> c.rs.value.from == log[|log| - 1].cur || c.rs == log[|log| - 1].rs
    ensures LogOk(log + [c]) && Monotone(log + [c])
  {
    var log' := log + [c];
    forall k | 0 <= k < |log'|
      ensures GoodCatalog(log'[k]) && Agree(log'[k], c) && log'[k].cur.gen <= c.cur.gen
    {
      if k < |log| { assert GoodCatalog(log[k]) && Agree(log[k], log[|log| - 1]); }
    }
    forall j, k | 0 <= j <= k < |log'| ensures log'[j].cur.gen <= log'[k].cur.gen {
      if k == |log| && j < |log| { assert log[j].cur.gen <= log[|log| - 1].cur.gen; }
    }
  }

  lemma LogGrows(route: Router, s: State, s': State)
    requires WritersFromLog(route, s) && s'.writers == s.writers && s.log <= s'.log
    ensures WritersFromLog(route, s')
  {
    forall x | x in s'.writers ensures FromLog(route, s'.log, x, s'.writers[x]) {
      var k :| 0 <= k < |s.log| && DualTargets(route, s.log[k], x) == (Some(s.writers[x].live), s.writers[x].target);
      assert s'.log[k] == s.log[k];
    }
  }

  // ---------- steps that only move the program counter ----------

  /** Nothing an id can see changes. */
  predicate SameData(s: State, s': State)
  {
    && s'.log == s.log && s'.at == s.at && s'.writers == s.writers && s'.acked == s.acked && s'.h == s.h
  }

  lemma MoveKeeps(route: Router, s: State, s': State)
    requires Inv(route, s) && SameData(s, s') && Shape(route, s')
    requires s'.parts == s.parts && (Creating(s').Some? ==> Creating(s') == Creating(s))
    requires forall x :: PosOf(route, s'.pc, FromOf(Durable(s)).P, x) == PosOf(route, s.pc, FromOf(Durable(s)).P, x)
    ensures Inv(route, s')
  {
    hide Shape, LocalInv, PosOf, PlacedAll, WritersFromLog;
    FewerStay(route, s, s');
    forall x ensures LocalInv(LocalOf(route, s', x)) {
      assert LocalOf(route, s', x) == LocalOf(route, s, x);
    }
  }

  // ---------- drops ----------

  lemma DropLocalKeeps(l: Local, ph: Phys)
    requires LocalInv(l) && l.pos == Ahead && ph.gen != l.curHome.gen
    ensures LocalInv(PutAt(l, ph, None).(oldHere := l.oldHere && ph != l.fromHome,
                                         dirty := l.dirty && (l.phase == Before ==> ph != l.toHome)))
  {
  }

  /** The marks after a drop. */
  function DropHistory(route: Router, s: State, ph: Phys): (h: History)
    requires s.log != []
  {
    if PreCutover(Durable(s)) && ph.gen == Durable(s).rs.value.to.gen
    then s.h.(dirty := set x | x in s.h.dirty && Home(route, Durable(s).rs.value.to, x) != ph) else s.h
  }

  lemma DropLocalOf(route: Router, s: State, ph: Phys, pc: Pc, x: Id)
    requires s.log != []
    requires PosOf(route, pc, FromOf(Durable(s)).P, x) == PosOf(route, s.pc, FromOf(Durable(s)).P, x)
    ensures var l := LocalOf(route, s, x);
      LocalOf(route, s.(parts := (s.parts - {ph}), pc := pc, h := DropHistory(route, s, ph)), x) ==
      PutAt(l, ph, None).(oldHere := l.oldHere && ph != l.fromHome, dirty := l.dirty && (l.phase == Before ==> ph != l.toHome))
  {
    hide PosOf;
  }

  lemma DropPlaced(route: Router, parts: Partitions, t: Route, ph: Phys, stray: set<Id>)
    requires PlacedAll(route, parts, t, stray)
    ensures PlacedAll(route, (parts - {ph}), t, stray)
  {
    forall p, x | 0 <= p < t.P && x !in stray && Read((parts - {ph}), Phys(t.gen, p), x).Some?
      ensures p == PartitionOf(route, x, t.P) {
      assert Read(parts, Phys(t.gen, p), x).Some?;
    }
  }

  lemma DropPlacement(route: Router, s: State, s': State, ph: Phys)
    requires s.log != [] && Placement(route, s)
    requires s'.log == s.log && s'.parts == s.parts - {ph} && s'.h.stray == s.h.stray
    requires Creating(s').None?
    ensures Placement(route, s')
  {
    hide PlacedAll;
    DropPlaced(route, s.parts, Durable(s).cur, ph, s.h.stray);
    if PreCutover(Durable(s)) { DropPlaced(route, s.parts, Durable(s).rs.value.to, ph, s.h.stray); }
  }

  lemma DropKeeps(route: Router, s: State, ph: Phys, pc: Pc)
    requires Inv(route, s) && ph.gen != Durable(s).cur.gen
    requires forall x :: PosOf(route, s.pc, FromOf(Durable(s)).P, x) == Ahead
    requires forall x :: PosOf(route, pc, FromOf(Durable(s)).P, x) == Ahead
    requires Shape(route, s.(parts := (s.parts - {ph}), pc := pc, h := DropHistory(route, s, ph)))
    requires !pc.CreateNew? && !pc.SetState?
    ensures Inv(route, s.(parts := (s.parts - {ph}), pc := pc, h := DropHistory(route, s, ph)))
  {
    hide Shape, LocalInv, PlacedAll, PosOf, WritersFromLog;
    var s' := s.(parts := (s.parts - {ph}), pc := pc, h := DropHistory(route, s, ph));
    FewerStay(route, s, s');
    DropPlacement(route, s, s', ph);
    forall x ensures LocalInv(LocalOf(route, s', x)) {
      DropLocalOf(route, s, ph, pc, x);
      DropLocalKeeps(LocalOf(route, s, x), ph);
    }
  }

  /** Every drop step is a drop. */
  lemma VictimStep(route: Router, s: State)
    requires s.log != [] && CoordEnabled(route, s, []) && Victim(s).Some?
    ensures CoordStep(route, s, []) ==
            s.(parts := (s.parts - {Victim(s).value}), pc := CoordPc(route, s, []), h := DropHistory(route, s, Victim(s).value))
    ensures !CoordPc(route, s, []).CreateNew? && !CoordPc(route, s, []).SetState?
    ensures forall P, x :: PosOf(route, s.pc, P, x) == Ahead && PosOf(route, CoordPc(route, s, []), P, x) == Ahead
  {
    hide CopyHistory, FlipHistory;
  }

  lemma VictimShape(route: Router, s: State)
    requires Shape(route, s) && CoordEnabled(route, s, []) && Victim(s).Some?
    ensures Victim(s).value.gen != Durable(s).cur.gen
    ensures Shape(route, CoordStep(route, s, []))
  {
    hide LogOk, Monotone, CopyHistory, FlipHistory;
    assert s.log != [];
    var s' := CoordStep(route, s, []);
    assert s'.log == s.log;
  }

  lemma VictimKeeps(route: Router, s: State)
    requires Inv(route, s) && CoordEnabled(route, s, []) && Victim(s).Some?
    ensures Inv(route, CoordStep(route, s, []))
  {
    VictimShape(route, s);
    VictimStep(route, s);
    hide Inv, CoordStep, Victim, CoordEnabled, CoordPc, DropHistory;
    DropKeeps(route, s, Victim(s).value, CoordPc(route, s, []));
  }

  // ---------- begin, create, set state ----------

  lemma DropNewEnd(route: Router, s: State)
    requires Inv(route, s) && s.pc.DropNew? && Victim(s).None?
    ensures CoordEnabled(route, s, []) && Inv(route, CoordStep(route, s, []))
  {
    var s' := CoordStep(route, s, []);
    assert s'.pc == CreateNew(s.pc.goal, 0, false);
    EndShape(route, s);
    hide Inv, Shape;
    CreatingKeeps(route, s, s');
  }

  lemma EndShape(route: Router, s: State)
    requires Shape(route, s) && s.pc.DropNew? && Victim(s).None?
    ensures Shape(route, s.(pc := CreateNew(s.pc.goal, 0, false)))
    ensures CoordStep(route, s, []) == s.(pc := CreateNew(s.pc.goal, 0, false))
    ensures Absent(s.parts, Durable(s).cur.gen + 1, 0, s.pc.goal)
  {
    hide LogOk, Monotone;
  }

  /** Creation starts over absent partitions: nothing is misplaced there. */
  lemma CreatingKeeps(route: Router, s: State, s': State)
    requires Inv(route, s) && s.pc.DropNew? && s' == s.(pc := CreateNew(s.pc.goal, 0, false)) && Shape(route, s')
    requires Absent(s.parts, Durable(s).cur.gen + 1, 0, s.pc.goal)
    ensures Inv(route, s')
  {
    hide Shape, LocalInv, WritersFromLog;
    FewerStay(route, s, s');
    assert PlacedAll(route, s'.parts, Creating(s').value, s'.h.stray);
    hide PlacedAll;
    forall x ensures LocalInv(LocalOf(route, s', x)) {
      assert LocalOf(route, s', x) == LocalOf(route, s, x);
    }
  }

  lemma CreateNewShape(route: Router, s: State)
    requires Shape(route, s) && s.pc.CreateNew? && s.pc.p < s.pc.goal && CoordEnabled(route, s, [])
    ensures Shape(route, CoordStep(route, s, []))
  {
    hide LogOk, Monotone;
    assert s.log != [];
    var s' := CoordStep(route, s, []);
    assert s'.log == s.log && s'.h == s.h;
  }

  lemma CreateReads(route: Router, s: State, ph: Phys, x: Id)
    requires s.log != [] && s.pc.CreateNew? && s.pc.p < s.pc.goal && CoordEnabled(route, s, [])
    ensures Read(CoordStep(route, s, []).parts, ph, x) == Read(s.parts, ph, x)
    ensures ph.gen != Durable(s).cur.gen + 1 ==> (ph in CoordStep(route, s, []).parts <==> ph in s.parts)
  {
    hide CopyHistory, FlipHistory;
  }

  lemma CreatePlaced(route: Router, s: State, s': State, t: Route)
    requires forall ph, x :: Read(s'.parts, ph, x) == Read(s.parts, ph, x)
    requires PlacedAll(route, s.parts, t, s.h.stray) && s'.h.stray == s.h.stray
    ensures PlacedAll(route, s'.parts, t, s'.h.stray)
  {
  }

  lemma CreateNewKeeps(route: Router, s: State)
    requires Inv(route, s) && s.pc.CreateNew? && s.pc.p < s.pc.goal && CoordEnabled(route, s, [])
    ensures Inv(route, CoordStep(route, s, []))
  {
    var s' := CoordStep(route, s, []);
    CreateNewShape(route, s);
    assert SameData(s, s') && Creating(s') == Creating(s);
    assert forall P, x :: PosOf(route, s'.pc, P, x) == PosOf(route, s.pc, P, x);
    forall ph, x ensures Read(s'.parts, ph, x) == Read(s.parts, ph, x) { CreateReads(route, s, ph, x); }
    hide Shape, LocalInv, PlacedAll, WritersFromLog, CoordStep, PosOf;
    FewerStay(route, s, s');
    CreatePlaced(route, s, s', Durable(s).cur);
    if PreCutover(Durable(s)) { CreatePlaced(route, s, s', Durable(s).rs.value.to); }
    if Creating(s).Some? { CreatePlaced(route, s, s', Creating(s).value); }
    forall x ensures LocalInv(LocalOf(route, s', x)) {
      CreateReads(route, s, Home(route, FromOf(Durable(s)), x), x);
      FromGen(route, s);
      assert LocalOf(route, s', x) == LocalOf(route, s, x);
    }
  }

  lemma FromGen(route: Router, s: State)
    requires Inv(route, s)
    ensures FromOf(Durable(s)).gen <= Durable(s).cur.gen
  {
    assert GoodCatalog(s.log[|s.log| - 1]);
  }

  lemma CreatedShape(route: Router, s: State)
    requires Shape(route, s) && s.pc.CreateNew? && s.pc.p >= s.pc.goal
    ensures s.pc.p == s.pc.goal
    ensures s.pc.resume ==> Building(Durable(s), s.parts, s.pc.goal)
    ensures !s.pc.resume ==> Shape(route, CoordStep(route, s, []))
  {
    hide LogOk, Monotone;
  }

  lemma CreatedKeeps(route: Router, s: State)
    requires Inv(route, s) && s.pc.CreateNew? && s.pc.p >= s.pc.goal
    ensures Inv(route, CoordStep(route, s, []))
  {
    hide LocalInv, LogOk, Monotone;
    CreatedShape(route, s);
    hide Shape;
    if s.pc.resume { NewPassKeeps(route, s, 0); } else { MoveKeeps(route, s, CoordStep(route, s, [])); }
  }

  lemma PassLocalKeeps(l: Local)
    requires LocalInv(l) && (l.pos.Ahead? || l.pos.Behind?)
    ensures LocalInv(l.(pos := Ahead, stale := false, lost := false))
  {
  }

  predicate PassMayBegin(s: State, pass: nat)
    requires s.log != []
  {
    if pass == 0 then (s.pc.CreateNew? || s.pc.Grace?) && Building(Durable(s), s.parts, s.pc.goal)
    else pass == 1 && s.pc.Scan? && s.pc.pass == 0 && Durable(s).rs.Some? && s.pc.p == Durable(s).rs.value.from.P
  }

  lemma NewPassShape(route: Router, s: State, pass: nat)
    requires Shape(route, s) && PassMayBegin(s, pass)
    ensures Shape(route, s.(pc := Scan(s.pc.goal, pass, 0), h := NewPass(s.h)))
  {
    hide LogOk, Monotone;
  }

  /** A copy pass begins: nothing has been seen yet. */
  lemma NewPassKeeps(route: Router, s: State, pass: nat)
    requires Inv(route, s) && PassMayBegin(s, pass)
    ensures Inv(route, s.(pc := Scan(s.pc.goal, pass, 0), h := NewPass(s.h)))
  {
    hide Shape, LocalInv, PlacedAll, WritersFromLog;
    var s' := s.(pc := Scan(s.pc.goal, pass, 0), h := NewPass(s.h));
    NewPassShape(route, s, pass);
    FewerStay(route, s, s');
    forall x ensures LocalInv(LocalOf(route, s', x)) {
      var l := LocalOf(route, s, x);
      assert LocalOf(route, s', x) == l.(pos := Ahead, stale := false, lost := false);
      PassLocalKeeps(l);
    }
  }

  lemma SetStateLocalKeeps(l: Local, to: Phys, v: Option<Record>, late: bool)
    requires LocalInv(l) && l.phase == Stable && to.gen == l.curHome.gen + 1
    requires l.stray || late || v.None?
    ensures LocalInv(l.(phase := Before, toHome := to, to := v, pos := Ahead,
                        dirty := late && v.Some? && v != l.cur, stale := false, lost := false))
  {
  }

  lemma SetStateShape(route: Router, s: State)
    requires Shape(route, s) && s.pc.SetState?
    ensures Shape(route, CoordStep(route, s, []))
    ensures s.log <= CoordStep(route, s, []).log
  {
    var s' := CoordStep(route, s, []);
    AppendLog(s.log, s'.log[|s.log|]);
  }

  lemma SetStateLocalOf(route: Router, s: State, x: Id)
    requires Shape(route, s) && s.pc.SetState?
    ensures var l, to := LocalOf(route, s, x), Home(route, Route(s.pc.goal, Durable(s).cur.gen + 1), x);
            var v := Read(s.parts, to, x);
            && l.phase == Stable && to.gen == l.curHome.gen + 1 && (x in s.h.late || v.None?) && Coherent(l)
            && LocalOf(route, CoordStep(route, s, []), x) ==
               l.(phase := Before, toHome := to, to := v, pos := Ahead,
                  dirty := x in s.h.late && v.Some? && v != l.cur, stale := false, lost := false)
  {
    hide LogOk, Monotone, CopyHistory, FlipHistory;
    assert s.log != [];
    var to := Home(route, Route(s.pc.goal, Durable(s).cur.gen + 1), x);
    assert to in s.parts && s.parts[to].Keys <= s.h.late;
  }

  lemma SetStateKeeps(route: Router, s: State)
    requires Inv(route, s) && s.pc.SetState?
    ensures Inv(route, CoordStep(route, s, []))
  {
    var s' := CoordStep(route, s, []);
    SetStateShape(route, s);
    LogGrows(route, s, s');
    SetStatePlacement(route, s);
    forall x ensures LocalInv(LocalOf(route, s', x)) {
      hide LocalInv, LocalOf, CoordStep, Placement;
      SetStateLocalOf(route, s, x);
      var to := Home(route, Route(s.pc.goal, Durable(s).cur.gen + 1), x);
      SetStateLocalKeeps(LocalOf(route, s, x), to, Read(s.parts, to, x), x in s.h.late);
    }
  }

  lemma SetStatePlacement(route: Router, s: State)
    requires Shape(route, s) && s.pc.SetState? && Placement(route, s)
    ensures Placement(route, CoordStep(route, s, []))
  {
    hide PlacedAll, LogOk, Monotone;
  }

  // ---------- the copy pass ----------

  lemma {:induction false} PosInAbsent(recs: seq<(Id, Record)>, i: nat, x: Id)
    requires forall j :: i <= j < |recs| ==> recs[j].0 != x
    ensures PosIn(recs, i, Insert, x) == Behind
    decreases |recs| - i
  {
    if i < |recs| { PosInAbsent(recs, i + 1, x); }
  }

  lemma {:induction false} PosInPresent(recs: seq<(Id, Record)>, i: nat, j: nat)
    requires i <= j < |recs|
    requires forall a, b :: 0 <= a < b < |recs| ==> recs[a].0 != recs[b].0
    ensures PosIn(recs, i, Insert, recs[j].0) == Todo(recs[j].1)
    decreases j - i
  {
    if i < j { PosInPresent(recs, i + 1, j); }
  }

  lemma ScanLocalKeeps(l: Local, pos: Pos)
    requires LocalInv(l) && l.phase == Before && l.pos == Ahead
    requires l.stray || (l.from.None? && pos == Behind) || (l.from.Some? && pos == Todo(l.from.value))
    ensures LocalInv(l.(pos := pos))
  {
  }

  lemma ScanShape(route: Router, s: State, recs: seq<(Id, Record)>)
    requires Shape(route, s) && Placement(route, s)
    requires s.pc.Scan? && CoordEnabled(route, s, recs) && s.pc.p < Durable(s).rs.value.from.P
    ensures Shape(route, CoordStep(route, s, recs))
    ensures PreCutover(Durable(s))
  {
    hide LogOk, Monotone, CopyHistory, FlipHistory;
    assert s.log != [];
    var P := Durable(s).rs.value.from.P;
    forall j | 0 <= j < |recs| && recs[j].0 !in s.h.stray ensures PartitionOf(route, recs[j].0, P) == s.pc.p {
      assert Read(s.parts, Phys(Durable(s).rs.value.from.gen, s.pc.p), recs[j].0).Some?;
    }
  }

  /** What a scan of its partition makes of one id. */
  lemma ScanPos(route: Router, s: State, recs: seq<(Id, Record)>, x: Id)
    requires s.log != [] && s.pc.Scan? && CoordEnabled(route, s, recs) && PreCutover(Durable(s))
    requires s.pc.p < Durable(s).rs.value.from.P
    ensures var l := LocalOf(route, s, x);
            var pos := PosOf(route, CoordPc(route, s, recs), FromOf(Durable(s)).P, x);
            if PartitionOf(route, x, FromOf(Durable(s)).P) == s.pc.p then
              l.pos == Ahead && if l.from.None? then pos == Behind else pos == Todo(l.from.value)
            else pos == l.pos
  {
    var r := Durable(s).rs.value;
    if PartitionOf(route, x, r.from.P) == s.pc.p {
      var ph := Home(route, r.from, x);
      assert ph == Phys(r.from.gen, s.pc.p);
      if x in s.parts[ph] {
        var j :| 0 <= j < |recs| && recs[j].0 == x;
        PosInPresent(recs, 0, j);
      } else {
        PosInAbsent(recs, 0, x);
      }
    }
  }

  lemma ScanStep(route: Router, s: State, recs: seq<(Id, Record)>)
    requires s.log != [] && s.pc.Scan? && CoordEnabled(route, s, recs) && s.pc.p < Durable(s).rs.value.from.P
    ensures CoordStep(route, s, recs) == s.(pc := CoordPc(route, s, recs))
    ensures CoordPc(route, s, recs).Copy?
  {
    hide CopyHistory, FlipHistory;
  }

  lemma ScanKeeps(route: Router, s: State, recs: seq<(Id, Record)>)
    requires Inv(route, s) && s.pc.Scan? && CoordEnabled(route, s, recs) && s.pc.p < Durable(s).rs.value.from.P
    ensures Inv(route, CoordStep(route, s, recs))
  {
    ScanShape(route, s, recs);
    ScanStep(route, s, recs);
    hide Shape, LocalInv, WritersFromLog, CoordStep, CoordPc, PlacedAll;
    var s' := CoordStep(route, s, recs);
    FewerStay(route, s, s');
    forall x ensures LocalInv(LocalOf(route, s', x)) {
      hide LocalOf;
      ScanPos(route, s, recs, x);
      HomesOf(route, s, x);
      MoveLocalOf(route, s, s'.pc, x);
      if PartitionOf(route, x, FromOf(Durable(s)).P) == s.pc.p { ScanLocalKeeps(LocalOf(route, s, x), LocalOf(route, s', x).pos); }
    }
  }

  lemma MoveLocalOf(route: Router, s: State, pc: Pc, x: Id)
    requires s.log != []
    ensures LocalOf(route, s.(pc := pc), x) == LocalOf(route, s, x).(pos := PosOf(route, pc, FromOf(Durable(s)).P, x))
  {
    hide PosOf;
  }

  lemma HomesOf(route: Router, s: State, x: Id)
    requires s.log != [] && PreCutover(Durable(s))
    ensures var l := LocalOf(route, s, x);
            && l.phase == Before && l.pos == PosOf(route, s.pc, Durable(s).rs.value.from.P, x)
            && l.fromHome == Home(route, Durable(s).rs.value.from, x) && l.from == Read(s.parts, l.fromHome, x)
            && l.toHome == Home(route, Durable(s).rs.value.to, x) && l.to == Read(s.parts, l.toHome, x)
            && l.stray == (x in s.h.stray) && l.oldHere == (l.fromHome in s.parts)
            && l.dirty == (x in s.h.dirty) && l.stale == (x in s.h.stale) && l.lost == (x in s.h.lost)
  {
  }

  // ---------- one record ----------

  predicate OnRecord(route: Router, s: State)
  {
    && s.log != [] && s.pc.Copy? && s.pc.i < |s.pc.recs| && CoordEnabled(route, s, [])
    && PreCutover(Durable(s)) && GoodPins(Durable(s).rs.value)
    && GoodRecs(route, s.pc.recs, Durable(s).rs.value.from.P, s.pc.p, s.h.stray)
  }

  lemma CopyStepOf(route: Router, s: State)
    requires OnRecord(route, s)
    ensures CoordStep(route, s, []) ==
            s.(parts := CopyParts(route, s), pc := CopyPc(route, s), h := CopyHistory(route, s))
    ensures CopyParts(route, s).Keys == s.parts.Keys
    ensures CopyPc(route, s).Copy? && CopyPc(route, s) == s.pc.(i := CopyPc(route, s).i, sub := CopyPc(route, s).sub)
    ensures CopyPc(route, s).i <= |s.pc.recs| && (CopyPc(route, s).sub != Insert ==> CopyPc(route, s).i < |s.pc.recs|)
    ensures CopyHistory(route, s).stray == s.h.stray && CopyHistory(route, s).late == s.h.late
  {
  }

  lemma CopyShape(route: Router, s: State)
    requires Shape(route, s) && s.pc.Copy? && s.pc.i < |s.pc.recs| && CoordEnabled(route, s, [])
    ensures OnRecord(route, s) && Shape(route, CoordStep(route, s, []))
  {
    assert GoodCatalog(s.log[|s.log| - 1]);
    hide LogOk, Monotone, CoordStep, CopyParts, CopyPc, CopyHistory;
    assert OnRecord(route, s);
    CopyStepOf(route, s);
    hide CoordEnabled, OnRecord, GoodRecs;
  }

  lemma CopyPlacement(route: Router, s: State)
    requires OnRecord(route, s) && Placement(route, s)
    ensures Placement(route, CoordStep(route, s, []))
  {
    CopyStepOf(route, s);
    hide PlacedAll, CoordStep, CopyPc, CopyHistory;
    var r := Durable(s).rs.value;
    var (x, v) := s.pc.recs[s.pc.i];
    var ph, stray := Home(route, r.to, x), s.h.stray;
    WritePlaced(route, s.parts, r.from, ph, x, None, stray, stray);
    WritePlaced(route, s.parts, r.to, ph, x, None, stray, stray);
    WritePlaced(route, s.parts, r.from, ph, x, Some(v), stray, stray);
    WritePlaced(route, s.parts, r.to, ph, x, Some(v), stray, stray);
  }

  /** How one step of the copy loop moves one id. */
  lemma CopyPos(route: Router, s: State, x: Id)
    requires OnRecord(route, s) && x !in s.h.stray
    ensures var P := Durable(s).rs.value.from.P;
            var pos, pos' := PosOf(route, s.pc, P, x), PosOf(route, CopyPc(route, s), P, x);
            if x == s.pc.recs[s.pc.i].0 then
              match s.pc.sub
              case Insert => pos == Todo(s.pc.recs[s.pc.i].1) && pos' == Inserted
              case Check =>
                pos == Inserted &&
                pos' == if Read(s.parts, Home(route, Durable(s).rs.value.from, x), x).Some? then Behind else Guarding
              case Guard => pos == Guarding && pos' == Behind
            else pos' == pos
  {
    if x == s.pc.recs[s.pc.i].0 { PosInAbsent(s.pc.recs, s.pc.i + 1, x); }
  }

  /** A step of the copy loop, seen from any id. */
  lemma CopyLocalOf(route: Router, s: State, x: Id)
    requires OnRecord(route, s)
    ensures var l, h := LocalOf(route, s, x), CopyHistory(route, s);
            LocalOf(route, CoordStep(route, s, []), x) ==
            l.(to := Read(CopyParts(route, s), l.toHome, x),
               pos := PosOf(route, CopyPc(route, s), FromOf(Durable(s)).P, x),
               dirty := x in h.dirty, stale := x in h.stale, lost := x in h.lost)
  {
    CopyStepOf(route, s);
    CopyOthers(route, s, Home(route, Durable(s).rs.value.from, x), x);
    hide CoordStep, CoordEnabled, CopyParts, CopyPc, PosOf;
  }

  /** The copy loop writes only the generation being built, and only its record. */
  lemma CopyOthers(route: Router, s: State, ph: Phys, x: Id)
    requires OnRecord(route, s)
    ensures ph.gen == Durable(s).rs.value.from.gen || x != s.pc.recs[s.pc.i].0
            ==> Read(CopyParts(route, s), ph, x) == Read(s.parts, ph, x)
    ensures var h := CopyHistory(route, s); h.wrong == s.h.wrong && h.wrongOld == s.h.wrongOld
    ensures x != s.pc.recs[s.pc.i].0 ==>
            var h := CopyHistory(route, s);
            (x in h.dirty <==> x in s.h.dirty) && (x in h.stale <==> x in s.h.stale) && (x in h.lost <==> x in s.h.lost)
  {
  }

  lemma CopyLocalKeeps(route: Router, s: State, x: Id)
    requires OnRecord(route, s) && LocalInv(LocalOf(route, s, x))
    ensures LocalInv(LocalOf(route, CoordStep(route, s, []), x))
  {
    CopyStepOf(route, s);
    hide LocalInv, PosOf, LocalOf, CoordStep, CoordEnabled;
    var l := LocalOf(route, s, x);
    HomesOf(route, s, x);
    CopyLocalOf(route, s, x);
    if x in s.h.stray {
      StrayKeeps(l, LocalOf(route, CoordStep(route, s, []), x));
    } else {
      CopyPos(route, s, x);
      CopyOthers(route, s, l.toHome, x);
      if x == s.pc.recs[s.pc.i].0 {
        match s.pc.sub
        case Insert => InsertLocalKeeps(l);
        case Check => CheckLocalKeeps(l);
        case Guard => GuardLocalKeeps(l);
      }
    }
  }

  lemma StrayKeeps(l: Local, l': Local)
    requires LocalInv(l) && l.stray && l.phase == Before
    requires l' == l.(to := l'.to, pos := l'.pos, dirty := l'.dirty, stale := l'.stale, lost := l'.lost)
    ensures LocalInv(l')
  {
  }

  lemma CopyKeeps(route: Router, s: State)
    requires Inv(route, s) && s.pc.Copy? && s.pc.i < |s.pc.recs| && CoordEnabled(route, s, [])
    ensures Inv(route, CoordStep(route, s, []))
  {
    hide Shape, LocalInv, Placement, WritersFromLog, CoordEnabled;
    CopyShape(route, s);
    CopyPlacement(route, s);
    CopyStepOf(route, s);
    hide CoordStep;
    FewerStay(route, s, CoordStep(route, s, []));
    forall x ensures LocalInv(LocalOf(route, CoordStep(route, s, []), x)) {
      CopyLocalKeeps(route, s, x);
    }
  }

  lemma CopyEndShape(route: Router, s: State)
    requires Shape(route, s) && s.pc.Copy? && s.pc.i >= |s.pc.recs|
    ensures CoordEnabled(route, s, []) && Shape(route, CoordStep(route, s, []))
  {
    hide LogOk, Monotone;
  }

  lemma CopyEndKeeps(route: Router, s: State)
    requires Inv(route, s) && s.pc.Copy? && s.pc.i >= |s.pc.recs|
    ensures CoordEnabled(route, s, []) && Inv(route, CoordStep(route, s, []))
  {
    CopyEndShape(route, s);
    hide Shape, LocalInv, WritersFromLog;
    EndPos(route, s);
    MoveKeeps(route, s, CoordStep(route, s, []));
  }

  lemma EndPos(route: Router, s: State)
    requires s.pc.Copy? && s.pc.i >= |s.pc.recs|
    ensures forall P, x :: PosOf(route, Scan(s.pc.goal, s.pc.pass, s.pc.p + 1), P, x) == PosOf(route, s.pc, P, x)
  {
  }

  lemma ScanEndShape(route: Router, s: State)
    requires Shape(route, s) && s.pc.Scan? && CoordEnabled(route, s, []) && s.pc.p >= Durable(s).rs.value.from.P
    ensures PreCutover(Durable(s)) && s.pc.p == Durable(s).rs.value.from.P && s.pc.pass <= 1
    ensures s.pc.pass == 1 ==> Shape(route, CoordStep(route, s, []))
    ensures GoodCatalog(Durable(s))
  {
    assert GoodCatalog(s.log[|s.log| - 1]);
    hide LogOk, Monotone;
  }

  lemma ScanEndKeeps(route: Router, s: State)
    requires Inv(route, s) && s.pc.Scan? && CoordEnabled(route, s, []) && s.pc.p >= Durable(s).rs.value.from.P
    ensures Inv(route, CoordStep(route, s, []))
  {
    ScanEndShape(route, s);
    hide Shape, LocalInv, WritersFromLog;
    if s.pc.pass == 0 { NewPassKeeps(route, s, 1); } else { MoveKeeps(route, s, CoordStep(route, s, [])); }
  }

  lemma GraceKeeps(route: Router, s: State)
    requires Inv(route, s) && s.pc.Grace? && CoordEnabled(route, s, [])
    ensures Inv(route, CoordStep(route, s, []))
  {
    assert Building(Durable(s), s.parts, s.pc.goal);
    assert CoordStep(route, s, []) == s.(pc := Scan(s.pc.goal, 0, 0), h := NewPass(s.h));
    hide Inv, CoordStep, CoordEnabled;
    NewPassKeeps(route, s, 0);
  }

  // ---------- cutover ----------

  lemma FlipShape(route: Router, s: State)
    requires Shape(route, s) && s.pc.Flip?
    ensures PreCutover(Durable(s)) && GoodPins(Durable(s).rs.value) && HasAll(s.parts, Durable(s).rs.value.from)
    ensures CoordEnabled(route, s, []) && Shape(route, CoordStep(route, s, []))
    ensures s.log <= CoordStep(route, s, []).log
  {
    assert GoodCatalog(s.log[|s.log| - 1]);
    var s' := CoordStep(route, s, []);
    AppendLog(s.log, s'.log[|s.log|]);
  }

  lemma FlipLocalOf(route: Router, s: State, x: Id)
    requires s.log != [] && s.pc.Flip? && PreCutover(Durable(s)) && GoodPins(Durable(s).rs.value)
    requires HasAll(s.parts, Durable(s).rs.value.from)
    ensures var l := LocalOf(route, s, x);
            && l.phase == Before && l.pos == Behind && l.oldHere && ExpectedOf(s, x) == Expected(l)
            && LocalOf(route, CoordStep(route, s, []), x) ==
               l.(phase := After, curHome := l.toHome, cur := l.to, pos := Ahead, wrongOld := l.wrong,
                  wrong := if l.dirty || l.lost then l.to != Expected(l) else l.wrong)
  {
    assert Home(route, Durable(s).rs.value.from, x) in s.parts;
  }

  lemma FlipPlacement(route: Router, s: State)
    requires s.log != [] && s.pc.Flip? && PreCutover(Durable(s)) && Placement(route, s) && GoodPins(Durable(s).rs.value)
    ensures Placement(route, CoordStep(route, s, []))
  {
    hide PlacedAll;
  }

  lemma FlipKeeps(route: Router, s: State)
    requires Inv(route, s) && s.pc.Flip?
    ensures CoordEnabled(route, s, []) && Inv(route, CoordStep(route, s, []))
  {
    FlipShape(route, s);
    var s' := CoordStep(route, s, []);
    LogGrows(route, s, s');
    FlipPlacement(route, s);
    forall x ensures LocalInv(LocalOf(route, s', x)) {
      hide LocalInv, LocalOf, CoordStep, Placement;
      FlipLocalOf(route, s, x);
      if x in s.writers { WriterProper(route, s, x, s.writers[x]); }
      LocalWriter(route, s, x);
      FlipLocalKeeps(LocalOf(route, s, x));
    }
  }

  // ---------- back to stable ----------

  lemma ClearLocalKeeps(l: Local)
    requires LocalInv(l) && l.phase != Stable
    ensures LocalInv(l.(phase := Stable, oldHere := true, fromHome := l.curHome, toHome := l.curHome, from := l.cur, to := l.cur,
                        pos := Ahead))
  {
  }

  lemma ClearShape(route: Router, s: State)
    requires Shape(route, s) && (s.pc.Gate? || s.pc.FinClear? || s.pc.AbortClear?) && CoordEnabled(route, s, [])
    ensures Durable(s).rs.Some? && s.log <= CoordStep(route, s, []).log
    ensures Shape(route, CoordStep(route, s, []))
  {
    assert GoodCatalog(s.log[|s.log| - 1]);
    var s' := CoordStep(route, s, []);
    AppendLog(s.log, s'.log[|s.log|]);
    hide LogOk, Monotone;
    if s.pc.Gate? {
      forall n | n in s'.at ensures s'.at[n] < |s'.log| && View(s', n).cur == Durable(s').cur {
        assert View(s', n) == Durable(s);
      }
    }
  }

  lemma ClearLocalOf(route: Router, s: State, x: Id)
    requires s.log != [] && (s.pc.Gate? || s.pc.FinClear? || s.pc.AbortClear?) && CoordEnabled(route, s, [])
    requires Durable(s).rs.Some? && HasAll(s.parts, Durable(s).cur) && 1 < Durable(s).cur.P
    ensures var l := LocalOf(route, s, x);
            && l.phase != Stable
            && LocalOf(route, CoordStep(route, s, []), x) ==
               l.(phase := Stable, oldHere := true, fromHome := l.curHome, toHome := l.curHome, from := l.cur, to := l.cur,
                  pos := Ahead)
  {
    assert Home(route, Durable(s).cur, x) in s.parts;
  }

  /** Clearing the reshard state after the gate, on finalize, or on abort. */
  lemma ClearKeeps(route: Router, s: State)
    requires Inv(route, s) && (s.pc.Gate? || s.pc.FinClear? || s.pc.AbortClear?) && CoordEnabled(route, s, [])
    ensures Inv(route, CoordStep(route, s, []))
  {
    ClearShape(route, s);
    assert GoodCatalog(s.log[|s.log| - 1]);
    var s' := CoordStep(route, s, []);
    LogGrows(route, s, s');
    hide LogOk, Monotone, PlacedAll;
    forall x ensures LocalInv(LocalOf(route, s', x)) {
      hide LocalInv, LocalOf, CoordStep, Placement;
      ClearLocalOf(route, s, x);
      ClearLocalKeeps(LocalOf(route, s, x));
    }
  }

  // ---------- sweeping and dropping ----------

  lemma TailShape(route: Router, s: State)
    requires Shape(route, s) && (s.pc.DropOld? || s.pc.AbortDrop? || s.pc.Sweep?) && Victim(s).None?
    ensures CoordEnabled(route, s, []) && Shape(route, CoordStep(route, s, []))
    ensures CoordStep(route, s, []) == s.(pc := CoordPc(route, s, [])) && Creating(CoordStep(route, s, [])).None?
    ensures forall P, x :: PosOf(route, s.pc, P, x) == Ahead && PosOf(route, CoordPc(route, s, []), P, x) == Ahead
  {
    assert GoodCatalog(s.log[|s.log| - 1]);
    hide LogOk, Monotone;
  }

  /** Moving on when there is nothing to drop. */
  lemma TailKeeps(route: Router, s: State)
    requires Inv(route, s) && (s.pc.DropOld? || s.pc.AbortDrop? || s.pc.Sweep?) && Victim(s).None?
    ensures CoordEnabled(route, s, []) && Inv(route, CoordStep(route, s, []))
  {
    TailShape(route, s);
    hide Inv, CoordStep, CoordPc, Victim, CoordEnabled, PosOf;
    MoveKeeps(route, s, CoordStep(route, s, []));
  }

  // ---------- crash and begin ----------

  lemma CrashLocalKeeps(l: Local, mid: bool)
    requires LocalInv(l) && (l.stray || (mid <==> l.pos.Inserted? || l.pos.Guarding?))
    requires mid ==> l.phase == Before
    ensures LocalInv(l.(pos := Ahead, dirty := if mid && l.from.None? then l.to.Some? else l.dirty, stale := false, lost := false))
  {
  }

  lemma CrashShape(route: Router, s: State)
    requires Shape(route, s)
    ensures Shape(route, CrashStep(route, s))
    ensures s.pc.Copy? ==> PreCutover(Durable(s)) && GoodRecs(route, s.pc.recs, Durable(s).rs.value.from.P, s.pc.p, s.h.stray)
  {
    hide LogOk, Monotone;
  }

  lemma {:induction false} PosInMid(recs: seq<(Id, Record)>, i: nat, sub: CopyStep, x: Id)
    ensures PosIn(recs, i, sub, x).Inserted? || PosIn(recs, i, sub, x).Guarding? <==>
            i < |recs| && recs[i].0 == x && sub != Insert
    decreases |recs| - i
  {
    if i < |recs| && recs[i].0 != x { PosInMid(recs, i + 1, Insert, x); }
  }

  /** An id is inserted and unguarded exactly when the coordinator is on it. */
  lemma MidIsPos(route: Router, s: State, x: Id)
    requires s.log != [] && x !in s.h.stray
    requires s.pc.Copy? ==> Durable(s).rs.Some? && GoodRecs(route, s.pc.recs, Durable(s).rs.value.from.P, s.pc.p, s.h.stray)
    ensures var pos := PosOf(route, s.pc, FromOf(Durable(s)).P, x);
            MidCopy(s, x) <==> pos.Inserted? || pos.Guarding?
  {
    if s.pc.Copy? { PosInMid(s.pc.recs, s.pc.i, s.pc.sub, x); }
  }

  lemma CrashLocalOf(route: Router, s: State, x: Id)
    requires s.log != [] && (s.pc.Copy? ==> PreCutover(Durable(s)))
    ensures var l := LocalOf(route, s, x);
            LocalOf(route, CrashStep(route, s), x) ==
            l.(pos := Ahead, dirty := if MidCopy(s, x) && l.from.None? then l.to.Some? else l.dirty, stale := false, lost := false)
    ensures MidCopy(s, x) ==> LocalOf(route, s, x).phase == Before
  {
  }

  lemma CrashKeeps(route: Router, s: State)
    requires Inv(route, s)
    ensures Inv(route, CrashStep(route, s))
  {
    hide Shape, LocalInv, PlacedAll, WritersFromLog;
    var s' := CrashStep(route, s);
    CrashShape(route, s);
    FewerStay(route, s, s');
    forall x ensures LocalInv(LocalOf(route, s', x)) {
      hide LocalOf, CrashStep;
      CrashLocalOf(route, s, x);
      StrayIs(route, s, x);
      if x !in s.h.stray { MidIsPos(route, s, x); }
      CrashLocalKeeps(LocalOf(route, s, x), MidCopy(s, x));
    }
  }

  lemma StrayIs(route: Router, s: State, x: Id)
    requires s.log != []
    ensures LocalOf(route, s, x).stray <==> x in s.h.stray
    ensures LocalOf(route, s, x).pos == PosOf(route, s.pc, FromOf(Durable(s)).P, x)
  {
  }

  lemma BeginShape(route: Router, s: State, pc: Pc)
    requires Shape(route, s) && s.pc.Idle?
    requires (exists goal :: pc == StartReshard(Durable(s), goal)) || pc == StartAbort(Durable(s)) || pc == Sweep(0, false, 0, 0, 0)
    ensures Shape(route, s.(pc := pc)) && Creating(s.(pc := pc)).None?
    ensures forall P, x :: PosOf(route, pc, P, x) == Ahead
  {
    assert GoodCatalog(s.log[|s.log| - 1]);
    hide LogOk, Monotone;
  }

  lemma BeginKeeps(route: Router, s: State, pc: Pc)
    requires Inv(route, s) && s.pc.Idle?
    requires (exists goal :: pc == StartReshard(Durable(s), goal)) || pc == StartAbort(Durable(s)) || pc == Sweep(0, false, 0, 0, 0)
    ensures Inv(route, s.(pc := pc))
  {
    hide Shape, LocalInv, WritersFromLog;
    BeginShape(route, s, pc);
    MoveKeeps(route, s, s.(pc := pc));
  }

  /** Every coordinator step keeps the invariant. */
  lemma CoordKeeps(route: Router, s: State, recs: seq<(Id, Record)>)
    requires Inv(route, s) && CoordEnabled(route, s, recs)
    ensures Inv(route, CoordStep(route, s, recs))
  {
    assert s.log != [];
    hide Inv;
    if Victim(s).Some? {
      VictimKeeps(route, s);
    } else {
      match s.pc
      case DropNew(_, _) => DropNewEnd(route, s);
      case CreateNew(goal, p, _) => if p < goal { CreateNewKeeps(route, s); } else { CreatedKeeps(route, s); }
      case SetState(_) => SetStateKeeps(route, s);
      case Grace(_) => GraceKeeps(route, s);
      case Scan(_, _, p) =>
        if p < Durable(s).rs.value.from.P { ScanKeeps(route, s, recs); } else { ScanEndKeeps(route, s); }
      case Copy(_, _, _, rs, i, _) => if i < |rs| { CopyKeeps(route, s); } else { CopyEndKeeps(route, s); }
      case Flip(_) => FlipKeeps(route, s);
      case Gate(_) => ClearKeeps(route, s);
      case FinClear(_) => ClearKeeps(route, s);
      case AbortClear => ClearKeeps(route, s);
      case DropOld(_, _, _) => TailKeeps(route, s);
      case AbortDrop(_, _) => TailKeeps(route, s);
      case Sweep(_, _, _, _, _) => TailKeeps(route, s);
    }
  }
}
