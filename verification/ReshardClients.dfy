/** Client and node steps keep the reshard invariant. */
module ReshardClients {
  import opened Store
  import opened ReshardMachine
  import opened ReshardInvariant

  /** What any catalog entry tells a write: its own partition first and, while
      resharding, the other generation's partition second. */
  lemma TargetsOfEntry(route: Router, c: Catalog, x: Id)
    requires GoodCatalog(c)
    ensures Partitioned(c)
    ensures DualTargets(route, c, x).0 == Some(Home(route, c.cur, x))
    ensures c.rs.None? ==> DualTargets(route, c, x).1 == None
    ensures PreCutover(c) ==> DualTargets(route, c, x).1 == Some(Home(route, c.rs.value.to, x))
    ensures PostCutover(c) ==> DualTargets(route, c, x).1 == Some(Home(route, c.rs.value.from, x))
  {
  }

  /** A reshard state without the old generation's pin sends the second leg to the new
      generation until the catalog routes there; an unpartitioned collection has no live
      partition. */
  lemma TargetsWithoutPin(route: Router, c: Catalog, x: Id)
    ensures DualTargets(route, c, x).0 == None <==> !Partitioned(c)
    ensures c.rs.Some? && c.rs.value.to.P > 0 && c.rs.value.from.P == 0 && Partitioned(c) ==>
      && DualTargets(route, c, x).0 == Some(Home(route, c.cur, x))
      && (c.cur == c.rs.value.to ==> DualTargets(route, c, x).1 == None)
      && (c.cur.gen != c.rs.value.to.gen ==> DualTargets(route, c, x).1 == Some(Home(route, c.rs.value.to, x)))
    ensures c.rs.Some? && c.rs.value.to.P == 0 ==> DualTargets(route, c, x).1 == None
  {}

  /** However old the entry a write was resolved from, its live partition is the home
      of its id in its generation, and no generation is ahead of the durable one. */
  lemma WriterProper(route: Router, s: State, x: Id, w: Writer)
    requires LogOk(s.log) && FromLog(route, s.log, x, w)
    ensures Proper(LocalOf(route, s, x), w)
  {
    var k :| 0 <= k < |s.log| && DualTargets(route, s.log[k], x) == (Some(w.live), w.target);
    TargetsOfEntry(route, s.log[k], x);
    assert Agree(s.log[k], Durable(s));
  }

  // ---------- pieces of the invariant ----------

  lemma ShapeOf(route: Router, s: State, s': State)
    requires Shape(route, s)
    requires s'.log == s.log && s'.at == s.at && s'.pc == s.pc && s'.parts.Keys == s.parts.Keys
    requires GoodPc(route, Durable(s), s'.parts, s.pc, s'.h)
    ensures Shape(route, s')
  {
    hide GoodPc;
  }

  /** A point write into an existing partition keeps the program counter sound. */
  lemma WritePc(route: Router, d: Catalog, parts: Partitions, pc: Pc, h: History, h': History, ph: Phys, x: Id, v: Option<Record>)
    requires GoodPc(route, d, parts, pc, h) && ph in parts
    requires h.late <= h'.late && h.stray <= h'.stray
    requires d.rs.None? && ph.gen == d.cur.gen + 1 ==> x in h'.late
    ensures GoodPc(route, d, Write(parts, ph, x, v), pc, h')
  {
    var parts' := Write(parts, ph, x, v);
    assert parts'.Keys == parts.Keys;
    assert forall q :: q in parts ==> parts'[q].Keys <= if q == ph then parts[q].Keys + {x} else parts[q].Keys;
  }

  lemma MorePc(route: Router, d: Catalog, parts: Partitions, pc: Pc, h: History, h': History)
    requires GoodPc(route, d, parts, pc, h)
    requires h.late <= h'.late && h.stray <= h'.stray
    ensures GoodPc(route, d, parts, pc, h')
  {
  }

  /** Progress of a write keeps its targets. */
  lemma LegStays(route: Router, s: State, x: Id, w: Writer, s': State)
    requires WritersFromLog(route, s) && x in s.writers && w.live == s.writers[x].live && w.target == s.writers[x].target
    requires s'.writers == s.writers[x := w] && s'.log == s.log
    ensures WritersFromLog(route, s')
  {
    assert FromLog(route, s.log, x, w);
  }

  lemma FewerStay(route: Router, s: State, s': State)
    requires WritersFromLog(route, s) && s'.log == s.log
    requires forall x :: x in s'.writers ==> x in s.writers && s'.writers[x] == s.writers[x]
    ensures WritersFromLog(route, s')
  {
    hide FromLog;
  }

  lemma RetireShape(route: Router, s: State, writers: map<Id, Writer>, acked: map<Id, Record>)
    requires Shape(route, s)
    ensures Shape(route, s.(writers := writers, acked := acked))
  {
    hide GoodPc;
  }

  lemma WriterStays(route: Router, s: State, x: Id, w: Writer, writers: map<Id, Writer>)
    requires WritersFromLog(route, s) && FromLog(route, s.log, x, w)
    requires writers == s.writers[x := w]
    ensures WritersFromLog(route, s.(writers := writers))
  {
    hide FromLog;
  }

  // ---------- starting and retrying ----------

  lemma WriterLocalOf(route: Router, s: State, x: Id, w: Writer, y: Id)
    requires s.log != []
    ensures LocalOf(route, s.(writers := s.writers[x := w]), y) ==
            if y == x then LocalOf(route, s, y).(w := Some(w)) else LocalOf(route, s, y)
  {
  }

  lemma AttemptLocalKeeps(l: Local, w: Writer)
    requires LocalInv(l) && w.leg == 0
    requires l.stray || if l.w.Some? then w.landed == l.w.value.landed && w.op == l.w.value.op else !w.landed
    ensures LocalInv(l.(w := Some(w)))
  {
  }

  lemma AttemptKeeps(route: Router, s: State, n: Node, x: Id, op: Op, landed: bool)
    requires Inv(route, s) && Routable(s, n)
    requires if x in s.writers then landed == s.writers[x].landed && op == s.writers[x].op else !landed
    ensures Inv(route, s.(writers := s.writers[x := Attempt(route, View(s, n), x, op, landed)]))
  {
    hide LocalInv, Placement, GoodPc;
    var w := Attempt(route, View(s, n), x, op, landed);
    var s' := s.(writers := s.writers[x := w]);
    TargetsOfEntry(route, View(s, n), x);
    assert FromLog(route, s.log, x, w) by {
      assert DualTargets(route, s.log[s.at[n]], x) == (Some(w.live), w.target);
    }
    WriterStays(route, s, x, w, s'.writers);
    PlacementOf(route, s, s');
    hide Shape;
    forall y ensures LocalInv(LocalOf(route, s', y)) {
      WriterLocalOf(route, s, x, w, y);
      if y == x { AttemptLocalKeeps(LocalOf(route, s, y), w); }
    }
  }

  lemma PlacementOf(route: Router, s: State, s': State)
    requires s.log != [] && Placement(route, s)
    requires s'.log == s.log && s'.parts == s.parts && s'.pc == s.pc && s'.h.stray == s.h.stray
    ensures Placement(route, s')
  {
  }

  // ---------- the live leg ----------

  /** Completing a write touches nobody else's marks. */
  lemma CompletedOthers(route: Router, d: Catalog, parts: Partitions, pc: Pc, x: Id, w: Writer, h: History)
    ensures var h' := Completed(route, d, parts, pc, x, w, h);
      && h'.late == h.late && h'.stray == h.stray
      && forall y :: y != x ==>
           && (y in h'.dirty <==> y in h.dirty) && (y in h'.stale <==> y in h.stale) && (y in h'.lost <==> y in h.lost)
           && (y in h'.wrong <==> y in h.wrong) && (y in h'.wrongOld <==> y in h.wrongOld)
  {
    hide PosOf;
  }

  /** What completing a write does to its id. */
  lemma CompletedLocalOf(route: Router, s: State, x: Id, w: Writer)
    requires s.log != []
    ensures LocalOf(route, s.(h := Completed(route, Durable(s), s.parts, s.pc, x, w, s.h)), x) ==
            CompletedLocal(LocalOf(route, s, x), w)
  {
    hide PosOf, Reaches, Read, Effect;
    var d := Durable(s);
    if d.rs.None? {
    } else if PreCutover(d) {
    } else {
    }
  }

  lemma OtherLocalOf(route: Router, s: State, s': State, y: Id)
    requires s.log != [] && s'.log == s.log && s'.pc == s.pc && s'.acked == s.acked
    requires s'.parts.Keys == s.parts.Keys && forall ph :: Read(s'.parts, ph, y) == Read(s.parts, ph, y)
    requires (y in s.writers <==> y in s'.writers) && (y in s.writers ==> s'.writers[y] == s.writers[y])
    requires && (y in s'.h.dirty <==> y in s.h.dirty) && (y in s'.h.stale <==> y in s.h.stale)
             && (y in s'.h.lost <==> y in s.h.lost) && (y in s'.h.wrong <==> y in s.h.wrong)
             && (y in s'.h.wrongOld <==> y in s.h.wrongOld) && (y in s'.h.stray <==> y in s.h.stray)
    ensures LocalOf(route, s', y) == LocalOf(route, s, y)
  {
    hide PosOf;
  }

  lemma WrittenLocalOf(route: Router, s: State, ph: Phys, x: Id, v: Option<Record>, w: Writer)
    requires s.log != [] && ph in s.parts
    ensures LocalOf(route, s.(parts := Write(s.parts, ph, x, v), writers := s.writers[x := w]), x) ==
            PutAt(LocalOf(route, s, x), ph, v).(w := Some(w))
  {
    hide PosOf;
  }

  lemma LiveLocalOf(route: Router, s: State, x: Id)
    requires s.log != [] && LiveEnabled(s, x)
    ensures LocalOf(route, LiveStep(route, s, x), x) == LiveLocal(LocalOf(route, s, x))
  {
    hide LocalOf, Completed, CompletedLocal;
    var w := s.writers[x];
    var w' := w.(leg := 1, landed := true);
    var s1 := s.(parts := Write(s.parts, w.live, x, Effect(w.op)), writers := s.writers[x := w']);
    WrittenLocalOf(route, s, w.live, x, Effect(w.op), w');
    if w.target.None? {
      CompletedLocalOf(route, s1, x, w);
      assert LiveStep(route, s, x) == s1.(h := Completed(route, Durable(s), s1.parts, s.pc, x, w, s.h));
    } else {
      assert LiveStep(route, s, x) == s1;
    }
    LocalWriter(route, s, x);
  }

  lemma LocalWriter(route: Router, s: State, x: Id)
    requires s.log != []
    ensures LocalOf(route, s, x).w == if x in s.writers then Some(s.writers[x]) else None
  {
  }

  lemma LocalAcked(route: Router, s: State, x: Id)
    requires s.log != []
    ensures LocalOf(route, s, x).acked == Acked(s, x)
  {
  }

  lemma LiveOthers(route: Router, s: State, x: Id, y: Id)
    requires s.log != [] && LiveEnabled(s, x) && y != x
    ensures LocalOf(route, LiveStep(route, s, x), y) == LocalOf(route, s, y)
  {
    hide LocalOf, Completed;
    var w := s.writers[x];
    CompletedOthers(route, Durable(s), Write(s.parts, w.live, x, Effect(w.op)), s.pc, x, w, s.h);
    OtherLocalOf(route, s, LiveStep(route, s, x), y);
  }

  lemma LiveShape(route: Router, s: State, x: Id)
    requires Shape(route, s) && LiveEnabled(s, x) && Proper(LocalOf(route, s, x), s.writers[x])
    ensures Shape(route, LiveStep(route, s, x))
  {
    hide GoodPc, Completed;
    var s' := LiveStep(route, s, x);
    var w := s.writers[x];
    CompletedOthers(route, Durable(s), s'.parts, s.pc, x, w, s.h);
    WritePc(route, Durable(s), s.parts, s.pc, s.h, s'.h, w.live, x, Effect(w.op));
    ShapeOf(route, s, s');
  }

  lemma LivePlacement(route: Router, s: State, x: Id)
    requires LogOk(s.log) && LiveEnabled(s, x) && Proper(LocalOf(route, s, x), s.writers[x]) && Placement(route, s)
    ensures Placement(route, LiveStep(route, s, x))
  {
    hide Completed, PlacedAll;
    var s', w, d := LiveStep(route, s, x), s.writers[x], Durable(s);
    CompletedOthers(route, d, s'.parts, s.pc, x, w, s.h);
    WritePlaced(route, s.parts, d.cur, w.live, x, Effect(w.op), s.h.stray, s.h.stray);
    if PreCutover(d) { WritePlaced(route, s.parts, d.rs.value.to, w.live, x, Effect(w.op), s.h.stray, s.h.stray); }
    if Creating(s).Some? { WritePlaced(route, s.parts, Creating(s).value, w.live, x, Effect(w.op), s.h.stray, s.h.stray); }
  }

  lemma LiveKeeps(route: Router, s: State, x: Id)
    requires Inv(route, s) && LiveEnabled(s, x)
    ensures Inv(route, LiveStep(route, s, x))
  {
    hide LocalInv, Placement, Proper, GoodPc, Completed;
    var s', w := LiveStep(route, s, x), s.writers[x];
    WriterProper(route, s, x, w);
    LiveShape(route, s, x);
    LivePlacement(route, s, x);
    LegStays(route, s, x, s'.writers[x], s');
    hide Shape, LocalOf, FromLog, WritersFromLog;
    forall y ensures LocalInv(LocalOf(route, s', y)) {
      if y == x {
        LiveLocalOf(route, s, x);
        LocalWriter(route, s, x);
        LiveLocalKeeps(LocalOf(route, s, x));
      } else {
        LiveOthers(route, s, x, y);
      }
    }
  }

  // ---------- the second leg ----------

  lemma LandedGrows(route: Router, s: State, ph: Phys, x: Id, op: Op)
    requires s.log != []
    ensures var h := Landed(route, s, ph, x, op);
      && s.h.late <= h.late && s.h.stray <= h.stray && h.stray <= s.h.stray + {x}
      && h == s.h.(late := h.late, stray := h.stray)
      && (Durable(s).rs.None? && ph.gen == Durable(s).cur.gen + 1 ==> x in h.late)
      && (op.Upsert? && StrayAt(route, s, ph, x) ==> x in h.stray)
  {
  }

  lemma TargetLocalOf(route: Router, s: State, x: Id)
    requires s.log != [] && TargetEnabled(s, x)
    ensures LocalOf(route, TargetStep(route, s, x), x) ==
            TargetLocal(LocalOf(route, s, x), s.writers[x].target.value in s.parts, x in TargetStep(route, s, x).h.stray)
  {
    hide LocalOf, Completed, CompletedLocal, Landed;
    var w := s.writers[x];
    var ph := w.target.value;
    var w', s' := w.(leg := 2), TargetStep(route, s, x);
    LocalWriter(route, s, x);
    if ph in s.parts {
      var h := Landed(route, s, ph, x, w.op);
      LandedGrows(route, s, ph, x, w.op);
      var s1 := s.(parts := Write(s.parts, ph, x, Effect(w.op)), writers := s.writers[x := w']);
      WrittenLocalOf(route, s, ph, x, Effect(w.op), w');
      StrayLocalOf(route, s1, h, x);
      CompletedLocalOf(route, s1.(h := h), x, w);
      CompletedOthers(route, Durable(s), s1.parts, s.pc, x, w, h);
      assert s' == s1.(h := h).(h := Completed(route, Durable(s), s1.parts, s.pc, x, w, h));
    } else {
      var s1 := s.(writers := s.writers[x := w']);
      WriterLocalOf(route, s, x, w', x);
      CompletedLocalOf(route, s1, x, w);
      CompletedOthers(route, Durable(s), s.parts, s.pc, x, w, s.h);
      StrayLocalOf(route, s, s.h, x);
      assert s' == s1.(h := Completed(route, Durable(s), s.parts, s.pc, x, w, s.h));
    }
  }

  lemma StrayLocalOf(route: Router, s: State, h: History, x: Id)
    requires s.log != [] && h == s.h.(late := h.late, stray := h.stray) && s.h.stray <= h.stray
    ensures LocalOf(route, s.(h := h), x) == LocalOf(route, s, x).(stray := LocalOf(route, s, x).stray || x in h.stray)
    ensures LocalOf(route, s, x).stray <==> x in s.h.stray
  {
    hide PosOf;
  }

  lemma TargetOthers(route: Router, s: State, x: Id, y: Id)
    requires s.log != [] && TargetEnabled(s, x) && y != x
    ensures LocalOf(route, TargetStep(route, s, x), y) == LocalOf(route, s, y)
  {
    hide LocalOf, Completed, Landed;
    var w, s' := s.writers[x], TargetStep(route, s, x);
    LandedGrows(route, s, w.target.value, x, w.op);
    CompletedOthers(route, Durable(s), s'.parts, s.pc, x, w, s.h);
    CompletedOthers(route, Durable(s), s'.parts, s.pc, x, w, Landed(route, s, w.target.value, x, w.op));
    OtherLocalOf(route, s, s', y);
  }

  lemma TargetShape(route: Router, s: State, x: Id)
    requires Shape(route, s) && TargetEnabled(s, x)
    ensures Shape(route, TargetStep(route, s, x))
  {
    hide GoodPc, Completed, Landed;
    var s', w := TargetStep(route, s, x), s.writers[x];
    var ph := w.target.value;
    LandedGrows(route, s, ph, x, w.op);
    CompletedOthers(route, Durable(s), s'.parts, s.pc, x, w, s.h);
    CompletedOthers(route, Durable(s), s'.parts, s.pc, x, w, Landed(route, s, ph, x, w.op));
    if ph in s.parts {
      WritePc(route, Durable(s), s.parts, s.pc, s.h, s'.h, ph, x, Effect(w.op));
    } else {
      MorePc(route, Durable(s), s.parts, s.pc, s.h, s'.h);
    }
    ShapeOf(route, s, s');
  }

  lemma TargetPlacement(route: Router, s: State, x: Id)
    requires s.log != [] && TargetEnabled(s, x) && Placement(route, s)
    ensures Placement(route, TargetStep(route, s, x))
  {
    hide Completed, PlacedAll, Landed;
    var s', w, d := TargetStep(route, s, x), s.writers[x], Durable(s);
    var ph := w.target.value;
    LandedGrows(route, s, ph, x, w.op);
    CompletedOthers(route, d, s'.parts, s.pc, x, w, s.h);
    CompletedOthers(route, d, s'.parts, s.pc, x, w, Landed(route, s, ph, x, w.op));
    if ph in s.parts {
      WritePlaced(route, s.parts, d.cur, ph, x, Effect(w.op), s.h.stray, s'.h.stray);
      if PreCutover(d) { WritePlaced(route, s.parts, d.rs.value.to, ph, x, Effect(w.op), s.h.stray, s'.h.stray); }
      if Creating(s).Some? { WritePlaced(route, s.parts, Creating(s).value, ph, x, Effect(w.op), s.h.stray, s'.h.stray); }
    }
  }

  /** A missing target is never the routed partition, nor one that is there. */
  lemma MissingTarget(route: Router, s: State, x: Id)
    requires Shape(route, s) && TargetEnabled(s, x) && s.writers[x].target.value !in s.parts
    ensures var l := LocalOf(route, s, x);
            && s.writers[x].target.value != l.curHome
            && (l.oldHere ==> s.writers[x].target.value != l.fromHome)
  {
    hide GoodPc;
  }

  lemma TargetKeeps(route: Router, s: State, x: Id)
    requires Inv(route, s) && TargetEnabled(s, x)
    ensures Inv(route, TargetStep(route, s, x))
  {
    hide LocalInv, Placement, Proper, GoodPc, Completed, Landed;
    var s', w := TargetStep(route, s, x), s.writers[x];
    WriterProper(route, s, x, w);
    TargetShape(route, s, x);
    TargetPlacement(route, s, x);
    if w.target.value !in s.parts { MissingTarget(route, s, x); }
    LegStays(route, s, x, s'.writers[x], s');
    hide Shape, LocalOf, FromLog, WritersFromLog;
    forall y ensures LocalInv(LocalOf(route, s', y)) {
      if y == x {
        TargetLocalOf(route, s, x);
        LocalWriter(route, s, x);
        TargetLocalKeeps(LocalOf(route, s, x), w.target.value in s.parts, x in s'.h.stray);
      } else {
        TargetOthers(route, s, x, y);
      }
    }
  }

  // ---------- leaving, and catching up ----------

  lemma RetireLocalOf(route: Router, s: State, x: Id, acked: map<Id, Record>, y: Id)
    requires s.log != [] && (forall z :: z != x ==> Acked(s, z) == Acked(s.(acked := acked), z))
    ensures LocalOf(route, s.(writers := s.writers - {x}, acked := acked), y) ==
            if y == x then LocalOf(route, s, y).(w := None, acked := Acked(s.(acked := acked), x)) else LocalOf(route, s, y)
  {
    hide PosOf;
  }

  lemma RetireLocalKeeps(l: Local, acked: Option<Record>)
    requires LocalInv(l) && l.w.Some?
    requires l.stray || if WriteDone(l.w.value) then acked == Effect(l.w.value.op) else !l.w.value.landed && acked == l.acked
    ensures LocalInv(l.(w := None, acked := acked))
  {
  }

  /** A write leaves: acknowledged when complete, dropped when nothing landed. */
  lemma RetireKeeps(route: Router, s: State, x: Id, acked: map<Id, Record>)
    requires Inv(route, s) && x in s.writers
    requires forall z :: z != x ==> Acked(s, z) == Acked(s.(acked := acked), z)
    requires if WriteDone(s.writers[x]) then Acked(s.(acked := acked), x) == Effect(s.writers[x].op)
             else !s.writers[x].landed && acked == s.acked
    ensures Inv(route, s.(writers := s.writers - {x}, acked := acked))
  {
    hide LocalInv, Placement, Shape, WritersFromLog, LocalOf;
    var s' := s.(writers := s.writers - {x}, acked := acked);
    PlacementOf(route, s, s');
    RetireShape(route, s, s'.writers, acked);
    FewerStay(route, s, s');
    forall y ensures LocalInv(LocalOf(route, s', y)) {
      RetireLocalOf(route, s, x, acked, y);
      if y == x {
        LocalWriter(route, s, x);
        LocalAcked(route, s, x);
        RetireLocalKeeps(LocalOf(route, s, x), Acked(s', x));
      }
    }
  }

  lemma NodeShape(route: Router, s: State, n: Node)
    requires Shape(route, s) && n in s.at && s.at[n] + 1 < |s.log|
    ensures Shape(route, s.(at := s.at[n := s.at[n] + 1]))
  {
    hide GoodPc, LogOk;
    if s.pc.DropOld? {
      var k := s.at[n] + 1;
      assert s.log[s.at[n]].cur.gen <= s.log[k].cur.gen <= Durable(s).cur.gen;
      AgreeLast(s.log, k);
    }
  }

  lemma AgreeLast(log: seq<Catalog>, k: nat)
    requires LogOk(log) && k < |log| && log[k].cur.gen == log[|log| - 1].cur.gen
    ensures log[k].cur == log[|log| - 1].cur
  {
    assert Agree(log[k], log[|log| - 1]);
  }

  lemma NodeKeeps(route: Router, s: State, n: Node)
    requires Inv(route, s) && n in s.at && s.at[n] + 1 < |s.log|
    ensures Inv(route, s.(at := s.at[n := s.at[n] + 1]))
  {
    hide LocalInv, Placement, Shape, WritersFromLog;
    FewerStay(route, s, s.(at := s.at[n := s.at[n] + 1]));
    var s' := s.(at := s.at[n := s.at[n] + 1]);
    NodeShape(route, s, n);
    PlacementOf(route, s, s');
    forall y ensures LocalInv(LocalOf(route, s', y)) {
      assert LocalOf(route, s', y) == LocalOf(route, s, y);
    }
  }
}
