/** What an offline repartition should produce: every record re-inserted, one by
    one, into the partition that owns it.  The bulk-stage, bulk-build and insert
    path of `VectorResplit` is proved to produce the same. */
module ResplitSpec {
  import opened Store

  type Scanned = seq<(Id, Record)>

  /** A physical collection: its index and its bulk-load staging buffer. */
  datatype Index = Index(points: map<Id, Record>, staged: seq<(Id, seq<real>)>)

  // ---------- what re-inserting means ----------

  /** What `vector_insert` stores for a record carried over by a scan: a record
      with a version is restored verbatim, one without is a fresh insert. */
  function Stored(r: Record): (r': Record)
    ensures r' == r <==> r.version != 0
  {
    if r.version == 0 then r.(version := 1, keyExpires := map[]) else r
  }

  /** What a bulk build stores for a bare vector. */
  function Fresh(vec: seq<real>): (r: Record) { Record(vec, map[], None, 1, 0, map[]) }

  predicate Pristine(r: Record)
  {
    r.meta == map[] && r.sparse == None && r.version <= 1 && r.ttl == 0 && r.keyExpires == map[]
  }

  /** A record may be built in bulk exactly if re-inserting it stores what a bulk build
      does, and it has no key deadlines to lose. */
  lemma PristineIff(r: Record)
    ensures Pristine(r) <==> Stored(r) == Fresh(r.vec) && r.keyExpires == map[]
  {}

  /** Re-inserting records one by one into one index. */
  function InsertAll(m: map<Id, Record>, recs: Scanned): (m': map<Id, Record>)
  {
    if recs == [] then m else InsertAll(m, recs[..|recs| - 1])[recs[|recs| - 1].0 := Stored(recs[|recs| - 1].1)]
  }

  function BuildAll(batch: seq<(Id, seq<real>)>): (m: map<Id, Record>)
  {
    if batch == [] then map[] else BuildAll(batch[..|batch| - 1])[batch[|batch| - 1].0 := Fresh(batch[|batch| - 1].1)]
  }

  /** The records that partition `np` of the new generation receives. */
  function OwnedBy(route: Router, recs: Scanned, P: nat, np: nat): (r: Scanned)
  {
    if recs == [] then [] else
      var (x, v) := recs[|recs| - 1];
      OwnedBy(route, recs[..|recs| - 1], P, np) + (if PartitionOf(route, x, P) == np then [(x, v)] else [])
  }

  function PristineOf(recs: Scanned): (b: seq<(Id, seq<real>)>)
  {
    if recs == [] then [] else
      var (x, v) := recs[|recs| - 1];
      PristineOf(recs[..|recs| - 1]) + (if Pristine(v) then [(x, v.vec)] else [])
  }

  function RichOf(recs: Scanned): (r: Scanned)
  {
    if recs == [] then [] else
      var (x, v) := recs[|recs| - 1];
      RichOf(recs[..|recs| - 1]) + (if Pristine(v) then [] else [(x, v)])
  }

  predicate Distinct(recs: Scanned)
  {
    forall i, j :: 0 <= i < j < |recs| ==> recs[i].0 != recs[j].0
  }

  // ---------- the two-path copy refines the one-by-one copy ----------

  lemma {:induction false} InsertAllKeys(m: map<Id, Record>, recs: Scanned, x: Id)
    ensures x in InsertAll(m, recs) <==> x in m || exists i :: 0 <= i < |recs| && recs[i].0 == x
  {
    if recs != [] {
      var k := |recs| - 1;
      InsertAllKeys(m, recs[..k], x);
      if exists i :: 0 <= i < |recs| && recs[i].0 == x {
        var i :| 0 <= i < |recs| && recs[i].0 == x;
        if i < k { assert recs[..k][i].0 == x; }
      }
      if exists i :: 0 <= i < k && recs[..k][i].0 == x {
        var i :| 0 <= i < k && recs[..k][i].0 == x;
        assert recs[i].0 == x;
      }
    }
  }

  /** Inserting one more point first makes no difference, if it is not among the
      rest. */
  lemma {:induction false} InsertAllCommutes(m: map<Id, Record>, recs: Scanned, x: Id, v: Record)
    requires forall i :: 0 <= i < |recs| ==> recs[i].0 != x
    ensures InsertAll(m[x := v], recs) == InsertAll(m, recs)[x := v]
  {
    if recs != [] {
      var k := |recs| - 1;
      assert forall i :: 0 <= i < k ==> recs[..k][i] == recs[i];
      InsertAllCommutes(m, recs[..k], x, v);
    }
  }

  lemma {:induction false} RichFrom(recs: Scanned, i: nat)
    requires i < |RichOf(recs)|
    ensures exists j :: 0 <= j < |recs| && recs[j] == RichOf(recs)[i]
  {
    var k := |recs| - 1;
    if i < |RichOf(recs[..k])| {
      RichFrom(recs[..k], i);
      var j :| 0 <= j < k && recs[..k][j] == RichOf(recs[..k])[i];
      assert recs[j] == RichOf(recs)[i];
    } else {
      assert recs[k] == RichOf(recs)[i];
    }
  }

  lemma InsertAllSnoc(m: map<Id, Record>, recs: Scanned, x: Id, v: Record)
    ensures InsertAll(m, recs + [(x, v)]) == InsertAll(m, recs)[x := Stored(v)]
  {
    assert (recs + [(x, v)])[..|recs|] == recs;
  }

  lemma BuildAllSnoc(batch: seq<(Id, seq<real>)>, x: Id, vec: seq<real>)
    ensures BuildAll(batch + [(x, vec)]) == BuildAll(batch)[x := Fresh(vec)]
  {
    assert (batch + [(x, vec)])[..|batch|] == batch;
  }

  lemma RichOthers(recs: Scanned, x: Id, i: nat)
    requires forall j :: 0 <= j < |recs| ==> recs[j].0 != x
    requires i < |RichOf(recs)|
    ensures RichOf(recs)[i].0 != x
  {
    RichFrom(recs, i);
  }

  /** Building the pristine records and then inserting the rich ones yields the
      same map as re-inserting every record in scan order. */
  lemma {:induction false} TwoPaths(recs: Scanned)
    requires Distinct(recs)
    ensures InsertAll(BuildAll(PristineOf(recs)), RichOf(recs)) == InsertAll(map[], recs)
  {
    if recs != [] {
      var k := |recs| - 1;
      var head := recs[..k];
      var (x, v) := recs[k];
      TwoPaths(head);
      assert recs == head + [(x, v)];
      InsertAllSnoc(map[], head, x, v);
      TwoPathsStep(head, x, v);
    }
  }

  lemma TwoPathsStep(head: Scanned, x: Id, v: Record)
    requires forall j :: 0 <= j < |head| ==> head[j].0 != x
    ensures InsertAll(BuildAll(PristineOf(head + [(x, v)])), RichOf(head + [(x, v)])) ==
            InsertAll(BuildAll(PristineOf(head)), RichOf(head))[x := Stored(v)]
  {
    hide InsertAll, BuildAll, PristineOf, RichOf;
    PristineAppend(head, [(x, v)]);
    RichAppend(head, [(x, v)]);
    OwnedOne(_ => 0, x, v, 0, 0);
    if Pristine(v) {
      BuildAllSnoc(PristineOf(head), x, v.vec);
      assert RichOf(head) + [] == RichOf(head);
      forall i | 0 <= i < |RichOf(head)| ensures RichOf(head)[i].0 != x { RichOthers(head, x, i); }
      InsertAllCommutes(BuildAll(PristineOf(head)), RichOf(head), x, Fresh(v.vec));
    } else {
      assert PristineOf(head) + [] == PristineOf(head);
      InsertAllSnoc(BuildAll(PristineOf(head)), RichOf(head), x, v);
    }
  }

  /** Every scanned point ends up, as re-inserted, in the map. */
  lemma {:induction false} InsertAllValue(m: map<Id, Record>, recs: Scanned, i: nat)
    requires Distinct(recs) && i < |recs|
    ensures recs[i].0 in InsertAll(m, recs) && InsertAll(m, recs)[recs[i].0] == Stored(recs[i].1)
  {
    var k := |recs| - 1;
    if i < k {
      assert recs[..k][i] == recs[i];
      InsertAllValue(m, recs[..k], i);
    }
  }

  lemma {:induction false} OwnedFrom(route: Router, recs: Scanned, P: nat, np: nat, i: nat)
    requires i < |OwnedBy(route, recs, P, np)|
    ensures PartitionOf(route, OwnedBy(route, recs, P, np)[i].0, P) == np
    ensures exists j :: 0 <= j < |recs| && recs[j] == OwnedBy(route, recs, P, np)[i]
  {
    var k := |recs| - 1;
    var head := OwnedBy(route, recs[..k], P, np);
    if i < |head| {
      OwnedFrom(route, recs[..k], P, np, i);
      var j :| 0 <= j < k && recs[..k][j] == head[i];
      assert recs[j] == OwnedBy(route, recs, P, np)[i];
    } else {
      assert recs[k] == OwnedBy(route, recs, P, np)[i];
    }
  }

  lemma {:induction false} OwnedHas(route: Router, recs: Scanned, P: nat, np: nat, j: nat)
    requires j < |recs| && PartitionOf(route, recs[j].0, P) == np
    ensures exists i :: 0 <= i < |OwnedBy(route, recs, P, np)| && OwnedBy(route, recs, P, np)[i] == recs[j]
  {
    var k := |recs| - 1;
    var head := OwnedBy(route, recs[..k], P, np);
    if j < k {
      assert recs[..k][j] == recs[j];
      OwnedHas(route, recs[..k], P, np, j);
      var i :| 0 <= i < |head| && head[i] == recs[j];
      assert OwnedBy(route, recs, P, np)[i] == recs[j];
    } else {
      assert OwnedBy(route, recs, P, np)[|head|] == recs[j];
    }
  }

  lemma {:induction false} OwnedDistinct(route: Router, recs: Scanned, P: nat, np: nat)
    requires Distinct(recs)
    ensures Distinct(OwnedBy(route, recs, P, np))
  {
    if recs != [] {
      var k := |recs| - 1;
      OwnedDistinct(route, recs[..k], P, np);
      var head, all := OwnedBy(route, recs[..k], P, np), OwnedBy(route, recs, P, np);
      forall i, j | 0 <= i < j < |all| ensures all[i].0 != all[j].0 {
        if j == |head| {
          OwnedFrom(route, recs[..k], P, np, i);
          var q :| 0 <= q < k && recs[..k][q] == head[i];
          assert recs[q] == all[i];
        }
      }
    }
  }

  lemma {:induction false} OwnedAppend(route: Router, a: Scanned, b: Scanned, P: nat, np: nat)
    ensures OwnedBy(route, a + b, P, np) == OwnedBy(route, a, P, np) + OwnedBy(route, b, P, np)
  {
    if b == [] {
      assert a + b == a;
    } else {
      assert (a + b)[..|a + b| - 1] == a + b[..|b| - 1];
      OwnedAppend(route, a, b[..|b| - 1], P, np);
    }
  }

  lemma {:induction false} PristineAppend(a: Scanned, b: Scanned)
    ensures PristineOf(a + b) == PristineOf(a) + PristineOf(b)
  {
    if b == [] {
      assert a + b == a;
    } else {
      assert (a + b)[..|a + b| - 1] == a + b[..|b| - 1];
      PristineAppend(a, b[..|b| - 1]);
    }
  }

  lemma {:induction false} RichAppend(a: Scanned, b: Scanned)
    ensures RichOf(a + b) == RichOf(a) + RichOf(b)
  {
    if b == [] {
      assert a + b == a;
    } else {
      assert (a + b)[..|a + b| - 1] == a + b[..|b| - 1];
      RichAppend(a, b[..|b| - 1]);
    }
  }

  /** Filtering by owner and by kind commute. */
  lemma {:induction false} OwnedRich(route: Router, recs: Scanned, P: nat, np: nat)
    ensures OwnedBy(route, RichOf(recs), P, np) == RichOf(OwnedBy(route, recs, P, np))
  {
    if recs != [] {
      var k := |recs| - 1;
      OwnedRich(route, recs[..k], P, np);
      var (x, v) := recs[k];
      OwnedAppend(route, RichOf(recs[..k]), if Pristine(v) then [] else [(x, v)], P, np);
      RichAppend(OwnedBy(route, recs[..k], P, np), if PartitionOf(route, x, P) == np then [(x, v)] else []);
      OwnedOne(route, x, v, P, np);
    }
  }

  lemma NothingStaged(route: Router, P: nat)
    ensures RichOf([]) == [] && forall np :: PristineOf(OwnedBy(route, [], P, np)) == []
  {}

  /** One more scanned record, seen by the staging groups and by the per-record pass. */
  lemma StagedSnoc(route: Router, recs: Scanned, x: Id, v: Record, P: nat, np: nat)
    ensures PristineOf(OwnedBy(route, recs + [(x, v)], P, np)) ==
            PristineOf(OwnedBy(route, recs, P, np)) + if np == PartitionOf(route, x, P) && Pristine(v) then [(x, v.vec)] else []
  {
    var mine := OwnedBy(route, recs, P, np);
    assert (recs + [(x, v)])[..|recs|] == recs;
    if np == PartitionOf(route, x, P) {
      assert OwnedBy(route, recs + [(x, v)], P, np) == mine + [(x, v)];
      PristineSnoc(mine, x, v);
    } else {
      assert OwnedBy(route, recs + [(x, v)], P, np) == mine;
    }
  }

  lemma PristineSnoc(recs: Scanned, x: Id, v: Record)
    ensures PristineOf(recs + [(x, v)]) == PristineOf(recs) + if Pristine(v) then [(x, v.vec)] else []
  {
    assert (recs + [(x, v)])[..|recs|] == recs;
  }

  lemma RichSnoc(recs: Scanned, x: Id, v: Record)
    ensures RichOf(recs + [(x, v)]) == RichOf(recs) + if Pristine(v) then [] else [(x, v)]
  {
    assert (recs + [(x, v)])[..|recs|] == recs;
  }

  lemma OwnedOne(route: Router, x: Id, v: Record, P: nat, np: nat)
    ensures OwnedBy(route, [(x, v)], P, np) == if PartitionOf(route, x, P) == np then [(x, v)] else []
    ensures RichOf([(x, v)]) == if Pristine(v) then [] else [(x, v)]
    ensures PristineOf([(x, v)]) == if Pristine(v) then [(x, v.vec)] else []
    ensures OwnedBy(route, [], P, np) == [] && RichOf([]) == [] && PristineOf([]) == []
  {
    assert [(x, v)][..0] == [];
  }

  /** `scan` lists exactly the points of the old partitions below `upto`. */
  ghost predicate Lists(route: Router, scan: Scanned, parts: map<Phys, Index>, t: Route, upto: nat)
  {
    && Distinct(scan)
    && forall x: Id, v :: (x, v) in scan <==> PartitionOf(route, x, t.P) < upto && PointIn(parts, Home(route, t, x), x) == Some(v)
  }

  function PointIn(parts: map<Phys, Index>, ph: Phys, x: Id): (v: Option<Record>)
  {
    if ph in parts && x in parts[ph].points then Some(parts[ph].points[x]) else None
  }

  lemma ListsNext(route: Router, scan: Scanned, recs: Scanned, parts: map<Phys, Index>, t: Route, p: nat)
    requires 1 < t.P && p < t.P && Phys(t.gen, p) in parts
    requires Lists(route, scan, parts, t, p) && IsScan(recs, parts[Phys(t.gen, p)].points)
    requires forall x :: x in parts[Phys(t.gen, p)].points ==> PartitionOf(route, x, t.P) == p
    ensures Lists(route, scan + recs, parts, t, p + 1)
  {
    var all := scan + recs;
    forall i, j | 0 <= i < j < |all| ensures all[i].0 != all[j].0 {
      if i < |scan| <= j {
        assert (scan[i].0, scan[i].1) in scan;
        assert recs[j - |scan|].0 in parts[Phys(t.gen, p)].points;
      } else if |scan| <= i {
        assert recs[i - |scan|].0 != recs[j - |scan|].0;
      }
    }
    forall x: Id, v
      ensures (x, v) in all <==> PartitionOf(route, x, t.P) < p + 1 && PointIn(parts, Home(route, t, x), x) == Some(v) {
      if (x, v) in recs {
        var i :| 0 <= i < |recs| && recs[i] == (x, v);
        assert recs[i].0 in parts[Phys(t.gen, p)].points;
      }
      if PartitionOf(route, x, t.P) == p && PointIn(parts, Home(route, t, x), x) == Some(v) {
        var i :| 0 <= i < |recs| && recs[i].0 == x;
        assert recs[i] == (x, v);
      }
    }
  }

  /** What the new generation holds once both paths have run: under every id the
      old generation's point as re-inserted, and nothing else. */
  lemma NewContent(route: Router, scan: Scanned, parts: map<Phys, Index>, t: Route, P: nat, x: Id)
    requires 1 < t.P && 1 < P && Lists(route, scan, parts, t, t.P)
    ensures var m := InsertAll(map[], OwnedBy(route, scan, P, PartitionOf(route, x, P)));
            var was := PointIn(parts, Home(route, t, x), x);
            if was.Some? then x in m && m[x] == Stored(was.value) else x !in m
  {
    var np := PartitionOf(route, x, P);
    var own := OwnedBy(route, scan, P, np);
    OwnedDistinct(route, scan, P, np);
    InsertAllKeys(map[], own, x);
    if x in InsertAll(map[], own) {
      var i :| 0 <= i < |own| && own[i].0 == x;
      OwnedFrom(route, scan, P, np, i);
      assert (x, own[i].1) in scan;
      InsertAllValue(map[], own, i);
    }
    if PointIn(parts, Home(route, t, x), x).Some? {
      assert (x, PointIn(parts, Home(route, t, x), x).value) in scan;
      var j :| 0 <= j < |scan| && scan[j] == (x, PointIn(parts, Home(route, t, x), x).value);
      OwnedHas(route, scan, P, np, j);
      var i :| 0 <= i < |own| && own[i] == scan[j];
      assert own[i].0 == x;
    }
  }

  /** Nothing lands in a partition that does not own it. */
  lemma NewPlaced(route: Router, scan: Scanned, P: nat, np: nat, x: Id)
    requires x in InsertAll(map[], OwnedBy(route, scan, P, np))
    ensures PartitionOf(route, x, P) == np
  {
    InsertAllKeys(map[], OwnedBy(route, scan, P, np), x);
    var i :| 0 <= i < |OwnedBy(route, scan, P, np)| && OwnedBy(route, scan, P, np)[i].0 == x;
    OwnedFrom(route, scan, P, np, i);
  }

  lemma ScanOneMore(recs: Scanned, m: map<Id, Record>, x: Id, v: Record)
    requires IsScan(recs, m) && x !in m
    ensures IsScan(recs + [(x, v)], m[x := v])
  {
    var all, m' := recs + [(x, v)], m[x := v];
    forall y | y in m' ensures exists i :: 0 <= i < |all| && all[i].0 == y {
      if y == x {
        assert all[|recs|].0 == y;
      } else {
        var i :| 0 <= i < |recs| && recs[i].0 == y;
        assert all[i].0 == y;
      }
    }
  }

  lemma SameLists(route: Router, scan: Scanned, a: map<Phys, Index>, b: map<Phys, Index>, t: Route)
    requires 1 < t.P && Lists(route, scan, a, t, t.P)
    requires forall p :: 0 <= p < t.P ==> Phys(t.gen, p) in a && Phys(t.gen, p) in b && a[Phys(t.gen, p)] == b[Phys(t.gen, p)]
    ensures Lists(route, scan, b, t, t.P)
  {
    forall x: Id ensures PointIn(a, Home(route, t, x), x) == PointIn(b, Home(route, t, x), x) {
      assert Phys(t.gen, PartitionOf(route, x, t.P)) in a;
    }
  }
}
