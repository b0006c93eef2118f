/** Which orphan partitions the bounded probe of `dropGenerationPartitions`
    reaches, as a property of the partitions that exist. */
module SweepSpec {
  import opened Store

  const CLEANUP_GAP_TOLERANCE: nat := 256
  const CLEANUP_MAX_PROBE: nat := 65536

  // ---------- what the orphan sweep reaches ----------

  /** A run of absent partitions long enough to end the probe. */
  ghost predicate GapAt(all: set<Phys>, gen: nat, q: int)
  {
    forall j {:trigger Phys(gen, j)} :: q <= j < q + CLEANUP_GAP_TOLERANCE && 0 <= j ==> Phys(gen, j) !in all
  }

  /** No such run lies entirely below index `p`. */
  ghost predicate Reached(all: set<Phys>, gen: nat, p: int)
  {
    forall q :: 0 <= q <= p - CLEANUP_GAP_TOLERANCE ==> !GapAt(all, gen, q)
  }

  /** The partitions of one generation a sweep removes. */
  ghost function Swept(all: set<Phys>, gen: nat): (r: set<Phys>)
  {
    set ph | ph in all && ph.gen == gen && ph.p < CLEANUP_MAX_PROBE && Reached(all, gen, ph.p)
  }

  ghost function SweptBelow(all: set<Phys>, live: nat, g: nat): (r: set<Phys>)
  {
    if g == 0 then {} else SweptBelow(all, live, g - 1) + (if g - 1 == live then {} else Swept(all, g - 1))
  }

  /** The probe has looked at the indices below `p`, the last `miss` of which were
      absent, and removed exactly what it found. */
  ghost predicate Probed(all: set<Phys>, gone: set<Phys>, gen: nat, p: nat, miss: nat)
  {
    && miss <= p
    && (forall j: nat {:trigger Phys(gen, j)} :: p - miss <= j < p ==> Phys(gen, j) !in all)
    && (miss < p ==> Phys(gen, p - miss - 1) in all)
    && Reached(all, gen, p - 1)
    && forall ph :: ph in gone <==> ph in all && ph.gen == gen && ph.p < p
  }

  lemma ProbedStart(all: set<Phys>, gen: nat)
    ensures Probed(all, {}, gen, 0, 0)
  {
  }

  lemma ProbedReached(all: set<Phys>, gone: set<Phys>, gen: nat, p: nat, miss: nat)
    requires Probed(all, gone, gen, p, miss) && miss < CLEANUP_GAP_TOLERANCE
    ensures Reached(all, gen, p)
  {
    forall q | 0 <= q <= p - CLEANUP_GAP_TOLERANCE ensures !GapAt(all, gen, q) {
      if q == p - CLEANUP_GAP_TOLERANCE { assert Phys(gen, p - miss - 1) in all; }
    }
  }

  lemma ProbedNext(all: set<Phys>, gone: set<Phys>, gen: nat, p: nat, miss: nat)
    requires Probed(all, gone, gen, p, miss) && miss < CLEANUP_GAP_TOLERANCE
    ensures Phys(gen, p) !in gone
    ensures if Phys(gen, p) in all then Probed(all, gone + {Phys(gen, p)}, gen, p + 1, 0)
            else Probed(all, gone, gen, p + 1, miss + 1)
  {
    ProbedReached(all, gone, gen, p, miss);
    forall ph ensures ph in gone + {Phys(gen, p)} <==> ph in gone || (ph.gen == gen && ph.p == p) {
      if ph.gen == gen && ph.p == p { assert ph == Phys(gen, p); }
    }
  }

  lemma ProbedAll(all: set<Phys>, gone: set<Phys>, gen: nat, p: nat, miss: nat)
    requires Probed(all, gone, gen, p, miss)
    requires p == CLEANUP_MAX_PROBE || miss == CLEANUP_GAP_TOLERANCE
    requires p <= CLEANUP_MAX_PROBE && miss <= CLEANUP_GAP_TOLERANCE
    ensures gone == Swept(all, gen)
  {
    forall ph ensures ph in gone <==> ph in Swept(all, gen) {
      if ph in all && ph.gen == gen {
        if ph.p < p {
          assert Reached(all, gen, ph.p);
        } else if miss == CLEANUP_GAP_TOLERANCE {
          assert GapAt(all, gen, p - CLEANUP_GAP_TOLERANCE);
        }
      }
    }
  }

  /** What a sweep of one generation removes depends on that generation only. */
  lemma SweptLocal(all: set<Phys>, left: set<Phys>, gen: nat)
    requires forall ph: Phys :: ph.gen == gen ==> (ph in all <==> ph in left)
    ensures Swept(left, gen) == Swept(all, gen)
  {
    forall q ensures GapAt(all, gen, q) <==> GapAt(left, gen, q) {
    }
    forall ph ensures ph in Swept(left, gen) <==> ph in Swept(all, gen) {
      assert Reached(all, gen, ph.p) <==> Reached(left, gen, ph.p);
    }
  }

  lemma {:induction false} SweptBelowGens(all: set<Phys>, live: nat, g: nat, ph: Phys)
    ensures ph in SweptBelow(all, live, g) <==> ph.gen < g && ph.gen != live && ph in Swept(all, ph.gen)
  {
    if g > 0 { SweptBelowGens(all, live, g - 1, ph); }
  }

  /** Another partition lies within 256 indices below. */
  ghost predicate Followed(all: set<Phys>, gen: nat, p: nat)
  {
    p < 256 || exists q: nat :: p - 256 <= q < p && Phys(gen, q) in all
  }

  /** One sweep removes every partition of a generation, up to index 65536, exactly if
      each of them has another within 256 indices below it. */
  lemma SweepCompleteIff(all: set<Phys>, gen: nat)
    ensures (forall p: nat :: Phys(gen, p) in all && p < 65536 ==> Phys(gen, p) in Swept(all, gen)) <==>
            (forall p: nat :: Phys(gen, p) in all && p < 65536 ==> Followed(all, gen, p))
  {
    forall p: nat | Phys(gen, p) in all && p < CLEANUP_MAX_PROBE && Phys(gen, p) in Swept(all, gen)
      ensures Followed(all, gen, p)
    {
      if p >= CLEANUP_GAP_TOLERANCE {
        assert !GapAt(all, gen, p - CLEANUP_GAP_TOLERANCE);
      }
    }
    if forall p: nat :: Phys(gen, p) in all && p < CLEANUP_MAX_PROBE ==> Followed(all, gen, p) {
      forall p: nat | Phys(gen, p) in all && p < CLEANUP_MAX_PROBE ensures Phys(gen, p) in Swept(all, gen) {
        forall q | 0 <= q <= p - CLEANUP_GAP_TOLERANCE ensures !GapAt(all, gen, q) {
          FollowedDown(all, gen, p, q);
        }
      }
    }
  }

  /** Going down from `p`, some partition lies in any window below it. */
  lemma {:induction false} FollowedDown(all: set<Phys>, gen: nat, p: nat, q: nat)
    requires forall r: nat :: Phys(gen, r) in all && r < CLEANUP_MAX_PROBE ==> Followed(all, gen, r)
    requires Phys(gen, p) in all && p < CLEANUP_MAX_PROBE && q + CLEANUP_GAP_TOLERANCE <= p
    ensures !GapAt(all, gen, q)
    decreases p
  {
    assert Followed(all, gen, p);
    var r: nat :| p - CLEANUP_GAP_TOLERANCE <= r < p && Phys(gen, r) in all;
    if q + CLEANUP_GAP_TOLERANCE <= r { FollowedDown(all, gen, r, q); }
  }

  /** A second sweep finds nothing. */
  lemma SweepTwice(all: set<Phys>, gen: nat)
    ensures Swept(all - Swept(all, gen), gen) == {}
  {
    var left := all - Swept(all, gen);
    forall ph ensures ph !in Swept(left, gen) {
      if ph in left && ph.gen == gen && ph.p < CLEANUP_MAX_PROBE {
        assert !Reached(all, gen, ph.p);
        var q :| 0 <= q <= ph.p - CLEANUP_GAP_TOLERANCE && GapAt(all, gen, q);
        assert GapAt(left, gen, q);
      }
    }
  }

  /** Nor does a second sweep of all generations. */
  lemma {:induction false} CleanupTwice(all: set<Phys>, live: nat, g: nat, h: nat)
    requires h <= g
    ensures SweptBelow(all - SweptBelow(all, live, g), live, h) == {}
  {
    hide Swept;
    if h > 0 {
      CleanupTwice(all, live, g, h - 1);
      if h - 1 != live {
        var left := all - SweptBelow(all, live, g);
        forall ph: Phys | ph.gen == h - 1 ensures ph in all - Swept(all, h - 1) <==> ph in left {
          SweptBelowGens(all, live, g, ph);
        }
        SweptLocal(all - Swept(all, h - 1), left, h - 1);
        SweepTwice(all, h - 1);
      }
    }
  }
}
