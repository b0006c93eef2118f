/** Offline repartitioning: `VectorResplit` and the orphan sweep.

    The engine is a contract: `Cluster`'s first methods are the calls the
    coordinator makes.  Any of them may fail when `faulty` is set, which is how a
    failure (or a crash) at any point of an operation is modelled. */
module Resplit {
  import opened Store
  import opened ResplitSpec
  import opened SweepSpec

  const MAX_RESPLIT_PARTITIONS: nat := 65536

  datatype Outcome = Ok | Refused | Failed

  class Cluster {
    const route: Router
    const faulty: bool
    const single: bool
    var parts: map<Phys, Index>
    var cat: Route

    constructor (route: Router, faulty: bool, single: bool, parts: map<Phys, Index>, cat: Route)
      ensures this.route == route && this.faulty == faulty && this.single == single && this.parts == parts && this.cat == cat
    {
      this.route, this.faulty, this.single, this.parts, this.cat := route, faulty, single, parts, cat;
    }

    /** `PartitionsGen` finds an entry: on a single node a count of one is an entry, in a
        cluster it is not.  A count of zero stands for none. */
    predicate HasEntry()
      reads this
    {
      if single then cat.P > 0 else cat.P > 1
    }

    /** The routed generation exists and every point is in its partition. */
    ghost predicate Valid()
      reads this
    {
      && (1 < cat.P ==> forall p :: 0 <= p < cat.P ==> Phys(cat.gen, p) in parts)
      && (1 < cat.P ==> forall p, x: Id :: 0 <= p < cat.P && x in parts[Phys(cat.gen, p)].points ==>
            PartitionOf(route, x, cat.P) == p)
    }

    /** What the collection answers for one id. */
    ghost function Content(x: Id): (v: Option<Record>)
      reads this
    {
      PointIn(parts, Home(route, cat, x), x)
    }

    // ----- engine calls -----

    method Flaky() returns (up: bool)
      ensures !faulty ==> up
    {
      var coin: bool := *;
      up := coin || !faulty;
    }

    method Drop(ph: Phys) returns (ok: bool)
      modifies this
      ensures cat == old(cat)
      ensures parts == if ok then old(parts) - {ph} else old(parts)
      ensures !faulty ==> ok
    {
      ok := Flaky();
      if ok { parts := parts - {ph}; }
    }

    method Create(ph: Phys) returns (ok: bool)
      modifies this
      ensures cat == old(cat)
      ensures parts == if ok then old(parts)[ph := Index(map[], [])] else old(parts)
      ensures ok ==> ph !in old(parts)
      ensures !faulty && ph !in old(parts) ==> ok
    {
      ok := Flaky();
      ok := ok && ph !in parts;
      if ok { parts := parts[ph := Index(map[], [])]; }
    }

    method ScanVectors(ph: Phys) returns (ok: bool, recs: Scanned)
      ensures ok ==> ph in parts && IsScan(recs, parts[ph].points)
      ensures !faulty && ph in parts ==> ok
    {
      ok := Flaky();
      ok := ok && ph in parts;
      recs := [];
      if ok {
        var rest := parts[ph].points;
        while rest != map[]
          invariant rest.Keys <= parts[ph].points.Keys
          invariant forall x :: x in rest ==> rest[x] == parts[ph].points[x]
          invariant IsScan(recs, parts[ph].points - rest.Keys)
          decreases |rest|
        {
          var x :| x in rest;
          ghost var done := parts[ph].points - rest.Keys;
          ghost var before := recs;
          recs := recs + [(x, rest[x])];
          rest := rest - {x};
          assert parts[ph].points - rest.Keys == done[x := parts[ph].points[x]];
          ScanOneMore(before, done, x, parts[ph].points[x]);
        }
        assert parts[ph].points - rest.Keys == parts[ph].points;
      }
    }

    method BulkStage(ph: Phys, batch: seq<(Id, seq<real>)>) returns (ok: bool)
      modifies this
      ensures cat == old(cat)
      ensures ok ==> ph in old(parts) &&
                     parts == old(parts)[ph := Index(old(parts)[ph].points, old(parts)[ph].staged + batch)]
      ensures !ok ==> parts == old(parts)
      ensures !faulty && ph in old(parts) ==> ok
    {
      ok := Flaky();
      ok := ok && ph in parts;
      if ok { parts := parts[ph := Index(parts[ph].points, parts[ph].staged + batch)]; }
    }

    /** A build takes the staging buffer, and works only on an empty index. */
    method BulkBuild(ph: Phys) returns (ok: bool)
      modifies this
      ensures cat == old(cat)
      ensures ok ==> ph in old(parts) && (old(parts)[ph].staged == [] || old(parts)[ph].points == map[])
      ensures ok ==> parts == old(parts)[ph := if old(parts)[ph].staged == [] then old(parts)[ph]
                                               else Index(BuildAll(old(parts)[ph].staged), [])]
      ensures !ok ==> parts.Keys == old(parts).Keys &&
                      forall q :: q in parts && q != ph ==> parts[q] == old(parts)[q]
      ensures !faulty && ph in old(parts) && old(parts)[ph].points == map[] ==> ok
    {
      ok := Flaky();
      ok := ok && ph in parts;
      if ok && parts[ph].staged != [] {
        if parts[ph].points == map[] {
          parts := parts[ph := Index(BuildAll(parts[ph].staged), [])];
        } else {
          parts := parts[ph := Index(parts[ph].points, [])];
          ok := false;
        }
      }
    }

    method Insert(ph: Phys, x: Id, v: Record) returns (ok: bool)
      modifies this
      ensures cat == old(cat)
      ensures ok ==> ph in old(parts) &&
                     parts == old(parts)[ph := Index(old(parts)[ph].points[x := Stored(v)], old(parts)[ph].staged)]
      ensures !ok ==> parts == old(parts)
      ensures !faulty && ph in old(parts) ==> ok
    {
      ok := Flaky();
      ok := ok && ph in parts;
      if ok { parts := parts[ph := Index(parts[ph].points[x := Stored(v)], parts[ph].staged)]; }
    }

    method SetPartitionsGen(t: Route) returns (ok: bool)
      modifies this
      ensures parts == old(parts) && cat == if ok then t else old(cat)
      ensures !faulty ==> ok
    {
      ok := Flaky();
      if ok { cat := t; }
    }

    // ----- VectorResplit -----

    /** The other generation is out of the way and the routed one untouched. */
    twostate predicate RoutedKept()
      reads this
    {
      && cat == old(cat)
      && forall p :: 0 <= p < cat.P ==> Phys(cat.gen, p) in old(parts) ==>
           Phys(cat.gen, p) in parts && parts[Phys(cat.gen, p)] == old(parts)[Phys(cat.gen, p)]
    }

    /** Steps 1 and 2: clear leftovers of a failed attempt, then create. */
    method CreateNew(newP: nat, newGen: nat) returns (ok: bool)
      requires Valid() && newGen == cat.gen + 1
      modifies this
      ensures RoutedKept()
      ensures ok ==> forall p :: 0 <= p < newP ==> Phys(newGen, p) in parts && parts[Phys(newGen, p)] == Index(map[], [])
      ensures !faulty ==> ok
    {
      for p := 0 to newP
        invariant RoutedKept()
        invariant forall q :: 0 <= q < p ==> Phys(newGen, q) !in parts
      {
        ok := Drop(Phys(newGen, p));
        if !ok { return; }
      }
      for p := 0 to newP
        invariant RoutedKept()
        invariant forall q :: 0 <= q < p ==> Phys(newGen, q) in parts && parts[Phys(newGen, q)] == Index(map[], [])
        invariant forall q :: p <= q < newP ==> Phys(newGen, q) !in parts
      {
        ok := Create(Phys(newGen, p));
        if !ok { return; }
      }
      ok := true;
    }

    /** Splits one scan: pristine records grouped by target partition, the rest
        kept for the per-record pass. */
    method Classify(recs: Scanned, newP: nat) returns (stage: seq<seq<(Id, seq<real>)>>, rich: Scanned)
      requires 0 < newP
      ensures |stage| == newP
      ensures forall np :: 0 <= np < newP ==> stage[np] == PristineOf(OwnedBy(route, recs, newP, np))
      ensures rich == RichOf(recs)
    {
      hide PristineOf, OwnedBy, RichOf, Pristine;
      NothingStaged(route, newP);
      stage, rich := seq(newP, _ => []), [];
      assert recs[..0] == [];
      for i := 0 to |recs|
        invariant |stage| == newP
        invariant forall np :: 0 <= np < newP ==> stage[np] == PristineOf(OwnedBy(route, recs[..i], newP, np))
        invariant rich == RichOf(recs[..i])
      {
        var (x, v) := recs[i];
        var np := PartitionOf(route, x, newP);
        assert recs[..i + 1] == recs[..i] + [(x, v)];
        RichSnoc(recs[..i], x, v);
        forall q | 0 <= q < newP
          ensures PristineOf(OwnedBy(route, recs[..i + 1], newP, q)) ==
                  PristineOf(OwnedBy(route, recs[..i], newP, q)) + (if q == np && Pristine(v) then [(x, v.vec)] else []) {
          StagedSnoc(route, recs[..i], x, v, newP, q);
        }
        if Pristine(v) {
          stage := stage[np := stage[np] + [(x, v.vec)]];
        } else {
          rich := rich + [(x, v)];
        }
      }
      assert recs[..|recs|] == recs;
    }

    /** One `vector_bulk_stage` per non-empty group. */
    method StageGroups(stage: seq<seq<(Id, seq<real>)>>, newGen: nat) returns (ok: bool)
      requires newGen != cat.gen
      requires forall np :: 0 <= np < |stage| ==> Phys(newGen, np) in parts
      modifies this
      ensures RoutedKept()
      ensures ok ==> forall np :: 0 <= np < |stage| ==>
                Phys(newGen, np) in parts &&
                parts[Phys(newGen, np)] == Index(old(parts)[Phys(newGen, np)].points, old(parts)[Phys(newGen, np)].staged + stage[np])
      ensures !faulty ==> ok
    {
      for np := 0 to |stage|
        invariant RoutedKept()
        invariant forall q :: 0 <= q < np ==>
                Phys(newGen, q) in parts &&
                parts[Phys(newGen, q)] == Index(old(parts)[Phys(newGen, q)].points, old(parts)[Phys(newGen, q)].staged + stage[q])
        invariant forall q :: np <= q < |stage| ==> Phys(newGen, q) in parts && parts[Phys(newGen, q)] == old(parts)[Phys(newGen, q)]
      {
        if |stage[np]| > 0 {
          ok := BulkStage(Phys(newGen, np), stage[np]);
          if !ok { return; }
        } else {
          assert old(parts)[Phys(newGen, np)].staged + stage[np] == old(parts)[Phys(newGen, np)].staged;
        }
      }
      ok := true;
    }

    /** Step 3, first half: scan every old partition, stage the pristine records. */
    method StageAll(newP: nat, newGen: nat) returns (ok: bool, rich: Scanned, ghost scan: Scanned)
      requires Valid() && 1 < cat.P && 1 < newP && newGen == cat.gen + 1
      requires forall np :: 0 <= np < newP ==> Phys(newGen, np) in parts && parts[Phys(newGen, np)] == Index(map[], [])
      modifies this
      ensures RoutedKept()
      ensures ok ==> Lists(route, scan, old(parts), cat, cat.P) && rich == RichOf(scan)
      ensures ok ==> forall np :: 0 <= np < newP ==>
                Phys(newGen, np) in parts &&
                parts[Phys(newGen, np)] == Index(map[], PristineOf(OwnedBy(route, scan, newP, np)))
      ensures !faulty ==> ok
    {
      rich, scan := [], [];
      for p := 0 to cat.P
        invariant RoutedKept() && cat == old(cat)
        invariant Lists(route, scan, old(parts), cat, p) && rich == RichOf(scan)
        invariant forall np :: 0 <= np < newP ==>
                Phys(newGen, np) in parts &&
                parts[Phys(newGen, np)] == Index(map[], PristineOf(OwnedBy(route, scan, newP, np)))
      {
        var recs;
        ok, recs := ScanVectors(Phys(cat.gen, p));
        if !ok { return; }
        ListsNext(route, scan, recs, old(parts), cat, p);
        var stage, richHere := Classify(recs, newP);
        ok := StageGroups(stage, newGen);
        if !ok { return; }
        forall np | 0 <= np < newP
          ensures PristineOf(OwnedBy(route, scan + recs, newP, np)) == PristineOf(OwnedBy(route, scan, newP, np)) + stage[np] {
          OwnedAppend(route, scan, recs, newP, np);
          PristineAppend(OwnedBy(route, scan, newP, np), OwnedBy(route, recs, newP, np));
        }
        RichAppend(scan, recs);
        rich := rich + richHere;
        scan := scan + recs;
      }
      ok := true;
    }

    /** Step 3, second half: build every new partition, each on an empty index. */
    method BuildNew(newP: nat, newGen: nat, ghost staged: seq<seq<(Id, seq<real>)>>) returns (ok: bool)
      requires newGen != cat.gen && |staged| == newP
      requires forall np :: 0 <= np < newP ==> Phys(newGen, np) in parts && parts[Phys(newGen, np)] == Index(map[], staged[np])
      modifies this
      ensures RoutedKept()
      ensures ok ==> forall np :: 0 <= np < newP ==>
                Phys(newGen, np) in parts && parts[Phys(newGen, np)] == Index(BuildAll(staged[np]), [])
      ensures !faulty ==> ok
    {
      for np := 0 to newP
        invariant RoutedKept()
        invariant forall q :: 0 <= q < np ==> Phys(newGen, q) in parts && parts[Phys(newGen, q)] == Index(BuildAll(staged[q]), [])
        invariant forall q :: np <= q < newP ==> Phys(newGen, q) in parts && parts[Phys(newGen, q)] == Index(map[], staged[q])
      {
        assert parts[Phys(newGen, np)].points == map[];
        ok := BulkBuild(Phys(newGen, np));
        if !ok { return; }
      }
      ok := true;
    }

    /** The rich records, one `vector_insert` each. */
    method InsertRich(rich: Scanned, newP: nat, newGen: nat, ghost base: seq<map<Id, Record>>) returns (ok: bool)
      requires newGen != cat.gen && 1 < newP && |base| == newP
      requires forall np :: 0 <= np < newP ==> Phys(newGen, np) in parts && parts[Phys(newGen, np)] == Index(base[np], [])
      modifies this
      ensures RoutedKept()
      ensures ok ==> forall np :: 0 <= np < newP ==>
                Phys(newGen, np) in parts &&
                parts[Phys(newGen, np)] == Index(InsertAll(base[np], OwnedBy(route, rich, newP, np)), [])
      ensures !faulty ==> ok
    {
      for i := 0 to |rich|
        invariant RoutedKept()
        invariant forall np :: 0 <= np < newP ==>
                Phys(newGen, np) in parts &&
                parts[Phys(newGen, np)] == Index(InsertAll(base[np], OwnedBy(route, rich[..i], newP, np)), [])
      {
        var (x, v) := rich[i];
        ok := Insert(Phys(newGen, PartitionOf(route, x, newP)), x, v);
        if !ok { return; }
        forall np | 0 <= np < newP
          ensures InsertAll(base[np], OwnedBy(route, rich[..i + 1], newP, np)) ==
                  if np == PartitionOf(route, x, newP)
                  then InsertAll(base[np], OwnedBy(route, rich[..i], newP, np))[x := Stored(v)]
                  else InsertAll(base[np], OwnedBy(route, rich[..i], newP, np)) {
          assert rich[..i + 1] == rich[..i] + [(x, v)];
          OwnedAppend(route, rich[..i], [(x, v)], newP, np);
          OwnedOne(route, x, v, newP, np);
          InsertAllSnoc(base[np], OwnedBy(route, rich[..i], newP, np), x, v);
          assert OwnedBy(route, rich[..i], newP, np) + [] == OwnedBy(route, rich[..i], newP, np);
        }
      }
      assert rich[..|rich|] == rich;
      ok := true;
    }

    /** Everything before the flip: on success each new partition holds exactly
        what re-inserting its records one by one in scan order would give. */
    method FillNew(newP: nat, newGen: nat) returns (ok: bool, ghost scan: Scanned)
      requires Valid() && 1 < cat.P && 1 < newP && newGen == cat.gen + 1
      modifies this
      ensures RoutedKept()
      ensures ok ==> Lists(route, scan, old(parts), cat, cat.P)
      ensures ok ==> forall np :: 0 <= np < newP ==>
                Phys(newGen, np) in parts &&
                parts[Phys(newGen, np)] == Index(InsertAll(map[], OwnedBy(route, scan, newP, np)), [])
      ensures !faulty ==> ok
    {
      scan := [];
      ok := CreateNew(newP, newGen);
      if !ok { return; }
      var rich;
      ghost var parts1 := parts;
      ok, rich, scan := StageAll(newP, newGen);
      if !ok { return; }
      SameLists(route, scan, parts1, old(parts), cat);
      ghost var staged := seq(newP, np requires 0 <= np < newP => PristineOf(OwnedBy(route, scan, newP, np)));
      ok := BuildNew(newP, newGen, staged);
      if !ok { return; }
      ghost var base := seq(newP, np requires 0 <= np < newP => BuildAll(staged[np]));
      ok := InsertRich(rich, newP, newGen, base);
      if !ok { return; }
      forall np | 0 <= np < newP
        ensures InsertAll(base[np], OwnedBy(route, rich, newP, np)) == InsertAll(map[], OwnedBy(route, scan, newP, np)) {
        OwnedRich(route, scan, newP, np);
        OwnedDistinct(route, scan, newP, np);
        TwoPaths(OwnedBy(route, scan, newP, np));
      }
    }

    /** `VectorResplit`.  A failure before the flip leaves the routed content
        exactly as it was, leftovers of earlier attempts never stop a retry, and
        after the flip every id reads as the re-inserted record it had. */
    method VectorResplit(newP: int) returns (out: Outcome, ghost scan: Scanned)
      requires Valid()
      modifies this
      ensures Valid()
      ensures cat == old(cat) || (1 < newP && cat == Route(newP, old(cat).gen + 1))
      ensures cat == old(cat) ==> RoutedKept()
      ensures cat != old(cat) ==>
                && Lists(route, scan, old(parts), old(cat), old(cat).P)
                && (forall np :: 0 <= np < newP ==>
                      parts[Phys(cat.gen, np)] == Index(InsertAll(map[], OwnedBy(route, scan, newP, np)), []))
                && (forall x: Id :: Content(x) == if old(Content(x)).Some? then Some(Stored(old(Content(x)).value)) else None)
      ensures out == Refused <==> newP <= 1 || newP > MAX_RESPLIT_PARTITIONS || old(cat).P <= 1
      ensures out == Refused ==> parts == old(parts)
      ensures out == Ok ==> cat.P == newP
      ensures out == Ok && newP != old(cat).P ==> forall p :: 0 <= p < old(cat).P ==> Phys(old(cat).gen, p) !in parts
      ensures !faulty ==> out != Failed
    {
      scan := [];
      if newP <= 1 || newP > MAX_RESPLIT_PARTITIONS { return Refused, scan; }
      var t := cat;
      if t.P <= 1 { return Refused, scan; }
      if newP == t.P { return Ok, scan; }
      var newGen := t.gen + 1;
      ghost var parts0 := parts;
      var ok;
      ok, scan := FillNew(newP, newGen);
      if !ok { return Failed, scan; }
      ok := SetPartitionsGen(Route(newP, newGen));
      if !ok { return Failed, scan; }
      forall np, x: Id | 0 <= np < newP && x in parts[Phys(newGen, np)].points ensures PartitionOf(route, x, newP) == np {
        NewPlaced(route, scan, newP, np, x);
      }
      forall x: Id
        ensures PointIn(parts, Home(route, cat, x), x) ==
                var was := PointIn(parts0, Home(route, t, x), x);
                if was.Some? then Some(Stored(was.value)) else None {
        NewContent(route, scan, parts0, t, newP, x);
      }
      ghost var built := parts;
      for p := 0 to t.P
        invariant cat == Route(newP, newGen)
        invariant forall q :: 0 <= q < p ==> Phys(t.gen, q) !in parts
        invariant forall np :: 0 <= np < newP ==> Phys(newGen, np) in parts && parts[Phys(newGen, np)] == built[Phys(newGen, np)]
      {
        ok := Drop(Phys(t.gen, p));
        if !ok { return Failed, scan; }
      }
      out := Ok;
    }

    // ----- VectorResplitCleanup -----

    method Exists(ph: Phys) returns (found: bool)
      ensures found ==> ph in parts
      ensures !faulty ==> (found <==> ph in parts)
    {
      var up := Flaky();
      found := up && ph in parts;
    }

    /** `dropGenerationPartitions`: probes a generation upwards and drops what it
        finds until a run of absent partitions is too long. */
    method DropGenerationPartitions(gen: nat) returns (ok: bool, dropped: nat, ghost gone: set<Phys>)
      modifies this
      ensures cat == old(cat) && parts == old(parts) - gone
      ensures gone <= old(parts).Keys && dropped == |gone|
      ensures forall ph :: ph in gone ==> ph.gen == gen
      ensures !faulty ==> ok && gone == Swept(old(parts).Keys, gen)
    {
      ghost var all := parts.Keys;
      var p, miss := 0, 0;
      dropped, gone := 0, {};
      ProbedStart(all, gen);
      while p < CLEANUP_MAX_PROBE && miss < CLEANUP_GAP_TOLERANCE
        invariant 0 <= miss <= CLEANUP_GAP_TOLERANCE && 0 <= p <= CLEANUP_MAX_PROBE
        invariant cat == old(cat) && parts == old(parts) - gone
        invariant gone <= all && dropped == |gone|
        invariant forall ph :: ph in gone ==> ph.gen == gen && ph.p < p
        invariant !faulty ==> Probed(all, gone, gen, p, miss)
        decreases CLEANUP_MAX_PROBE - p
      {
        if !faulty { ProbedNext(all, gone, gen, p, miss); }
        var found := Exists(Phys(gen, p));
        if !found {
          miss := miss + 1;
        } else {
          ok := Drop(Phys(gen, p));
          if !ok { return; }
          gone := gone + {Phys(gen, p)};
          assert parts == old(parts) - gone;
          dropped, miss := dropped + 1, 0;
        }
        p := p + 1;
      }
      ok := true;
      if !faulty { ProbedAll(all, gone, gen, p, miss); }
    }

    /** Every generation up to the one after the routed one, except the latter. */
    method SweepGenerations(live: nat) returns (ok: bool, dropped: nat, ghost gone: set<Phys>)
      modifies this
      ensures cat == old(cat) && parts == old(parts) - gone
      ensures gone <= old(parts).Keys && dropped == |gone|
      ensures forall ph :: ph in gone ==> ph.gen != live
      ensures !faulty ==> ok && gone == SweptBelow(old(parts).Keys, live, live + 2)
    {
      hide Swept;
      dropped, gone := 0, {};
      for g := 0 to live + 2
        invariant cat == old(cat) && parts == old(parts) - gone
        invariant gone <= old(parts).Keys && dropped == |gone|
        invariant forall ph :: ph in gone ==> ph.gen < g && ph.gen != live
        invariant !faulty ==> gone == SweptBelow(old(parts).Keys, live, g)
      {
        if g != live {
          SweptLocal(old(parts).Keys, parts.Keys, g);
          var n;
          ghost var more;
          ok, n, more := DropGenerationPartitions(g);
          RemoveMore(old(parts), gone, more);
          dropped, gone := dropped + n, gone + more;
          if !ok { return; }
        }
      }
      ok := true;
    }

    /** `VectorResplitCleanup`: the routed generation is never touched, and the
        count returned is the number of partitions removed. */
    method VectorResplitCleanup() returns (out: Outcome, dropped: nat, ghost gone: set<Phys>)
      requires Valid()
      modifies this
      ensures Valid() && RoutedKept() && parts == old(parts) - gone
      ensures gone <= old(parts).Keys && dropped == |gone|
      ensures forall ph :: ph in gone ==> ph.gen != cat.gen
      ensures out == Refused <==> !HasEntry()
      ensures !faulty && HasEntry() ==> out == Ok && gone == SweptBelow(old(parts).Keys, cat.gen, cat.gen + 2)
    {
      if !HasEntry() {
        dropped, gone, out := 0, {}, Refused;
      } else {
        var ok;
        ok, dropped, gone := SweepGenerations(cat.gen);
        out := if ok then Ok else Failed;
      }
    }
  }

  lemma RemoveMore(parts: map<Phys, Index>, gone: set<Phys>, more: set<Phys>)
    requires more <= (parts - gone).Keys
    ensures (parts - gone) - more == parts - (gone + more) && |gone + more| == |gone| + |more|
  {
    assert gone !! more;
  }
}
