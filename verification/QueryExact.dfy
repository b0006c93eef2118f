/** Which trees of leaves and fusions are answered exactly, whatever the engine and the
    partitioning: those that distribute, and only those. */
module QueryExact {
  import opened Store
  import opened Ranking
  import opened QueryTree
  import opened QueryLemmas
  import opened QueryMerge
  import opened QueryFanOut

  /** A fusion of lanes, each a leaf's, a single-lane fusion's around one, or another
      fusion's of two or more. */
  predicate Rooted(spec: Spec)
    decreases spec, 0
  {
    && spec.mode == Fusion && |spec.prefetch| >= 1
    && forall i :: 0 <= i < |spec.prefetch| ==>
         if Expanded(spec.prefetch[i]) then Woven(spec.prefetch[i].spec) else Passes(spec.prefetch[i])
  }

  predicate Woven(spec: Spec)
    decreases spec, 1
  {
    Rooted(spec) && |spec.prefetch| >= 2
  }

  /** A source shipped as one lane that keeps `n` entries where the coordinator keeps
      more. */
  predicate ShortSource(src: Source, k: nat, n: nat)
  {
    Passes(src) && Kept(src, k) == n < SourcePool(src, k)
  }

  /** The source at `i`, or its subtree, is short. */
  predicate ShortAt(spec: Spec, i: nat, n: nat)
    requires i < |spec.prefetch|
    decreases spec, 0
  {
    if Expanded(spec.prefetch[i]) then HasShort(spec.prefetch[i].spec, n)
    else ShortSource(spec.prefetch[i], EffectiveK(spec), n)
  }

  predicate HasShort(spec: Spec, n: nat)
    decreases spec, 1
  {
    exists i :: 0 <= i < |spec.prefetch| && ShortAt(spec, i, n)
  }

  lemma {:induction false} SomeShort(spec: Spec) returns (n: nat)
    requires Rooted(spec) && !Distributes(spec)
    ensures HasShort(spec, n)
  {
    var i :| 0 <= i < |spec.prefetch| && !SourceDistributes(spec.prefetch[i], EffectiveK(spec));
    if Expanded(spec.prefetch[i]) {
      n := SomeShort(spec.prefetch[i].spec);
    } else {
      n := Kept(spec.prefetch[i], EffectiveK(spec));
    }
    assert ShortAt(spec, i, n);
  }

  // ---------- an engine that counts ----------

  /** As many hits as `n`, each telling how many. */
  function Tally(n: nat): (lane: Lane) { seq(n, _ => Hit(n, 0.0, 0.0)) }

  /** Every point matches every leaf, and a fusion counts the hits of its lanes. */
  function Counting(): (e: Engine)
  {
    Engine((leaf, id) => Some((0.0, 0.0)), (a, b, blend, k) => Tally(|a| + |b|), (a, b, blend, k) => Tally(|a| + |b|),
           (root, lanes, k) => [])
  }

  function Total(lanes: seq<Lane>): (n: nat)
  {
    if lanes == [] then 0 else Total(lanes[..|lanes| - 1]) + |lanes[|lanes| - 1]|
  }

  lemma {:induction false} FusedLength(lanes: seq<Lane>, scoreDesc: bool, blend: Blend, k: int, n: nat)
    requires 2 <= n <= |lanes|
    ensures FuseUpTo(Counting(), lanes, scoreDesc, blend, k, n) == Tally(Total(lanes[..n]))
  {
    assert lanes[..n][..n - 1] == lanes[..n - 1];
    if n > 2 {
      FusedLength(lanes, scoreDesc, blend, k, n - 1);
    } else {
      assert lanes[..1][..0] == [];
      assert Total(lanes[..1]) == |lanes[0]|;
    }
  }

  lemma {:induction false} CountingMatchesAll(leaf: Leaf, data: seq<Id>)
    ensures |Candidates(Counting(), leaf, data)| == |data|
  {
    if data != [] { CountingMatchesAll(leaf, data[1..]); }
  }

  lemma CountedLane(data: seq<Id>, src: Source, k: nat, depth: nat)
    requires Passes(src) && AcceptedSource(src, depth)
    ensures SourceLane(Counting(), data, src, k, depth).Ok?
    ensures |SourceLane(Counting(), data, src, k, depth).value| == AtMost(|data|, Kept(src, k))
  {
    PassingLane(Counting(), data, src, k, depth);
    CountingMatchesAll(InnerLeaf(src), data);
  }

  /** `n` points on one partition and one on another. */
  function Uneven(n: nat): (data: seq<seq<Id>>) { [Upto(n), [n]] }

  /** The union of a source's lanes is never shorter than its lane on one index, and is
      longer if the source keeps `n` entries where the coordinator keeps more. */
  lemma PassedLength(n: nat, src: Source, k: nat, depth: nat, lanes: seq<Lane>)
    requires Passes(src) && AcceptedSource(src, depth) && LanesOf(Counting(), Uneven(n), src, k, depth, lanes)
    ensures SourceLane(Counting(), Flatten(Uneven(n)), src, k, depth).Ok?
    ensures var whole := |SourceLane(Counting(), Flatten(Uneven(n)), src, k, depth).value|;
      && whole <= |UnionLane(src, k, lanes)|
      && (ShortSource(src, k, n) ==> whole < |UnionLane(src, k, lanes)|)
  {
    hide Counting, Passes, Kept, AcceptedSource, SourceLane, Best;
    var data := Uneven(n);
    FlattenTwo(Upto(n), [n]);
    CountedLane(data[0], src, k, depth);
    CountedLane(data[1], src, k, depth);
    CountedLane(Flatten(data), src, k, depth);
    assert SourceLane(Counting(), data[0], src, k, depth) == Ok(lanes[0]);
    assert SourceLane(Counting(), data[1], src, k, depth) == Ok(lanes[1]);
    assert lanes == [lanes[0], lanes[1]];
    FlattenTwo(lanes[0], lanes[1]);
    UnionLength(src, k, lanes);
  }

  lemma {:induction false} TotalCompare(a: seq<Lane>, b: seq<Lane>)
    requires |a| == |b| && forall j :: 0 <= j < |a| ==> |a[j]| <= |b[j]|
    ensures Total(a) <= Total(b)
    ensures (exists j :: 0 <= j < |a| && |a[j]| < |b[j]|) ==> Total(a) < Total(b)
  {
    if a != [] { TotalCompare(a[..|a| - 1], b[..|b| - 1]); }
  }

  /** Every hit tells how many there are. */
  ghost predicate Tells(lane: Lane) { lane == Tally(|lane|) }

  /** So what is cut from such a lane still shows. */
  lemma TakeTells(a: Lane, b: Lane, k: nat)
    requires Tells(a) && Tells(b) && |a| < |b| && k > 0
    ensures Take(a, k) != Take(b, k)
  {
    assert Take(b, k)[0] == Hit(|b|, 0.0, 0.0);
    if a != [] { assert Take(a, k)[0] == Hit(|a|, 0.0, 0.0); }
  }

  // ---------- whole trees ----------

  lemma {:induction false} SourceLength(n: nat, parts: seq<seq<Lane>>, spec: Spec, i: nat, depth: nat, cursor: nat)
    requires Rooted(spec) && Accepted(spec, depth) && i < |spec.prefetch|
    requires Shipped(Counting(), Uneven(n), parts, spec, i, depth, cursor)
    ensures SourceLane(Counting(), Flatten(Uneven(n)), spec.prefetch[i], EffectiveK(spec), depth).Ok?
    ensures var whole := |SourceLane(Counting(), Flatten(Uneven(n)), spec.prefetch[i], EffectiveK(spec), depth).value|;
      var merged := |MergedSource(Counting(), parts, spec.prefetch[i], EffectiveK(spec), cursor)|;
      whole <= merged && (ShortAt(spec, i, n) ==> whole < merged)
    ensures Expanded(spec.prefetch[i]) ==>
      && Tells(SourceLane(Counting(), Flatten(Uneven(n)), spec.prefetch[i], EffectiveK(spec), depth).value)
      && Tells(MergedSource(Counting(), parts, spec.prefetch[i], EffectiveK(spec), cursor))
    ensures Shipped(Counting(), Uneven(n), parts, spec, i + 1, depth, cursor + SourceCount(spec.prefetch[i]))
    decreases spec, 0
  {
    hide Shipped, Run, MergedNode, UnionLane, Counting, Uneven, Flatten;
    var src := spec.prefetch[i];
    assert AcceptedSource(src, depth);
    if Expanded(src) {
      ShippedSubtree(Counting(), Uneven(n), parts, spec, i, depth, cursor);
      NodeLength(n, parts, src.spec, depth + 1, cursor);
    } else {
      ShippedLane(Counting(), Uneven(n), parts, spec, i, depth, cursor);
      PassedLength(n, src, EffectiveK(spec), depth, Gather(parts, cursor));
    }
  }

  lemma {:induction false} LanesLength(n: nat, parts: seq<seq<Lane>>, spec: Spec, i: nat, depth: nat, cursor: nat)
    requires Rooted(spec) && Accepted(spec, depth) && i <= |spec.prefetch|
    requires Shipped(Counting(), Uneven(n), parts, spec, i, depth, cursor)
    ensures forall j :: i <= j < |spec.prefetch| ==>
      && SourceLane(Counting(), Flatten(Uneven(n)), spec.prefetch[j], EffectiveK(spec), depth).Ok?
      && var whole := |SourceLane(Counting(), Flatten(Uneven(n)), spec.prefetch[j], EffectiveK(spec), depth).value|;
         var merged := |MergedLanes(Counting(), parts, spec, i, cursor)[j - i]|;
         whole <= merged && (ShortAt(spec, j, n) ==> whole < merged)
    decreases spec, 1, |spec.prefetch| - i
  {
    hide Shipped, SourceLane, MergedSource, SourceCount, ShortAt, Rooted, Accepted, Tells, Counting, Uneven, Flatten;
    if i < |spec.prefetch| {
      SourceLength(n, parts, spec, i, depth, cursor);
      LanesLength(n, parts, spec, i + 1, depth, cursor + SourceCount(spec.prefetch[i]));
    }
  }

  lemma {:induction false} WhichShort(spec: Spec, n: nat) returns (i: nat)
    requires HasShort(spec, n)
    ensures i < |spec.prefetch| && ShortAt(spec, i, n)
  {
    i :| i < |spec.prefetch| && ShortAt(spec, i, n);
  }

  lemma {:induction false} NodeLength(n: nat, parts: seq<seq<Lane>>, spec: Spec, depth: nat, cursor: nat)
    requires Woven(spec) && Accepted(spec, depth) && Shipped(Counting(), Uneven(n), parts, spec, 0, depth, cursor)
    ensures Answer(Counting(), Flatten(Uneven(n)), spec, depth).Ok?
    ensures var whole := |Answer(Counting(), Flatten(Uneven(n)), spec, depth).value|;
      && whole <= |MergedNode(Counting(), parts, spec, cursor)|
      && (HasShort(spec, n) ==> whole < |MergedNode(Counting(), parts, spec, cursor)|)
    ensures Tells(Answer(Counting(), Flatten(Uneven(n)), spec, depth).value) && Tells(MergedNode(Counting(), parts, spec, cursor))
    decreases spec, 2
  {
    hide Shipped, SourceLane, MergedLanes, Counting, Uneven, Flatten, HasShort, ShortAt;
    var e, data := Counting(), Flatten(Uneven(n));
    RunAccepts(e, data, spec, depth);
    LanesSplit(e, data, spec, 0, depth);
    var lanes, merged := SourceLanes(e, data, spec, 0, depth).value, MergedLanes(e, parts, spec, 0, cursor);
    LanesLength(n, parts, spec, 0, depth, cursor);
    forall j | 0 <= j < |lanes| ensures |lanes[j]| <= |merged[j]| && (ShortAt(spec, j, n) ==> |lanes[j]| < |merged[j]|) {
      assert SourceLane(e, data, spec.prefetch[j], EffectiveK(spec), depth) == Ok(lanes[j]);
    }
    if HasShort(spec, n) { var j := WhichShort(spec, n); }
    TotalCompare(lanes, merged);
    assert lanes[..|lanes|] == lanes && merged[..|merged|] == merged;
    FusedLength(lanes, SourceOrientation(spec.prefetch[0]), spec.blend, EffectiveK(spec), |lanes|);
    FusedLength(merged, SourceOrientation(spec.prefetch[0]), spec.blend, EffectiveK(spec), |merged|);
  }

  // ---------- a root with one lane ----------

  /** Its answer, and its merge, is its source's lane cut to its own limit. */
  lemma SingleLane(e: Engine, data: seq<Id>, parts: seq<seq<Lane>>, spec: Spec, lane: Lane)
    requires Rooted(spec) && Accepted(spec, 0) && |spec.prefetch| == 1
    requires SourceLane(e, data, spec.prefetch[0], EffectiveK(spec), 0) == Ok(lane)
    ensures Answer(e, data, spec, 0) == Ok(Take(lane, EffectiveK(spec)))
    ensures MergedNode(e, parts, spec, 0) == Take(MergedSource(e, parts, spec.prefetch[0], EffectiveK(spec), 0), EffectiveK(spec))
  {
    NodeAssembles(e, data, spec, [lane], 0);
    NothingLeft(e, parts, spec, SourceCount(spec.prefetch[0]));
    MergedStep(e, parts, spec, 0, 0);
  }

  /** The limit of a root with one lane may hide what the lane lost. */
  predicate Exact(spec: Spec)
    requires Rooted(spec)
  {
    if |spec.prefetch| == 1 && !Expanded(spec.prefetch[0]) then
      var k := EffectiveK(spec);
      AtMost(Kept(spec.prefetch[0], k), k) == AtMost(SourcePool(spec.prefetch[0], k), k)
    else Distributes(spec)
  }

  lemma BestTake<T(!new)>(less: (T, T) -> bool, s: seq<T>, m: nat, n: nat)
    ensures Take(Best(less, s, m), n) == Best(less, s, AtMost(m, n))
  {
    TakeTake(Sort(less, s), m, n);
  }

  lemma SingleExact(e: Engine, data: seq<seq<Id>>, parts: seq<seq<Lane>>, spec: Spec)
    requires Rooted(spec) && Accepted(spec, 0) && |spec.prefetch| == 1 && !Expanded(spec.prefetch[0]) && Exact(spec)
    requires TreeReplies(e, data, spec, parts)
    ensures Answer(e, Flatten(data), spec, 0) == Ok(MergedNode(e, parts, spec, 0))
  {
    var src, k := spec.prefetch[0], EffectiveK(spec);
    var less, each := Before(SourceOrientation(src)), CandidatesOfEach(e, InnerLeaf(src), data);
    assert AcceptedSource(src, 0);
    TreeShipped(e, data, spec, parts);
    ShippedLane(e, data, parts, spec, 0, 0, 0);
    PassingUnion(e, data, src, k, 0, Gather(parts, 0));
    PassingLane(e, Flatten(data), src, k, 0);
    CandidatesFlatten(e, InnerLeaf(src), data);
    var kept, pool := Kept(src, k), SourcePool(src, k);
    SingleLane(e, Flatten(data), parts, spec, Best(less, Flatten(each), kept));
    BestTake(less, Flatten(each), kept, k);
    BestTake(less, Flatten(Gather(parts, 0)), pool, k);
    BestOfBests(less, each, kept, AtMost(kept, k));
  }

  // ---------- the theorem ----------

  lemma TwoReplies(n: nat, spec: Spec) returns (parts: seq<seq<Lane>>)
    requires Rooted(spec) && Accepted(spec, 0)
    ensures Distinct(Flatten(Uneven(n))) && TreeReplies(Counting(), Uneven(n), spec, parts)
    ensures Shipped(Counting(), Uneven(n), parts, spec, 0, 0, 0)
  {
    hide Run, Counting;
    var data := Uneven(n);
    FlattenTwo(Upto(n), [n]);
    CollectAccepts(Counting(), data[0], spec, 0);
    CollectAccepts(Counting(), data[1], spec, 0);
    parts := [Collect(Counting(), data[0], spec, 0).value, Collect(Counting(), data[1], spec, 0).value];
    TreeShipped(Counting(), data, spec, parts);
  }

  lemma SingleDiverges(spec: Spec) returns (n: nat, parts: seq<seq<Lane>>)
    requires Rooted(spec) && Accepted(spec, 0) && !Exact(spec) && |spec.prefetch| == 1
    ensures Distinct(Flatten(Uneven(n))) && TreeReplies(Counting(), Uneven(n), spec, parts)
    ensures Answer(Counting(), Flatten(Uneven(n)), spec, 0) != Ok(MergedNode(Counting(), parts, spec, 0))
  {
    var src, k := spec.prefetch[0], EffectiveK(spec);
    n := ShortSingle(spec);
    parts := TwoReplies(n, spec);
    SourceLength(n, parts, spec, 0, 0, 0);
    assert AcceptedSource(src, 0);
    hide Shipped, Counting, Flatten, Uneven, MergedSource, MergedNode, Answer, ShortAt, Tells, SourceLane, Distributes, Accepted, AcceptedSource;
    var e, data := Counting(), Flatten(Uneven(n));
    var lane, merged := SourceLane(e, data, src, k, 0).value, MergedSource(e, parts, src, k, 0);
    SingleLane(e, data, parts, spec, lane);
    if Expanded(src) {
      TakeTells(lane, merged, k);
    } else {
      KeptLength(n, src, k);
    }
  }

  lemma ShortSingle(spec: Spec) returns (n: nat)
    requires Rooted(spec) && !Exact(spec) && |spec.prefetch| == 1
    ensures ShortAt(spec, 0, n)
    ensures !Expanded(spec.prefetch[0]) ==> n == Kept(spec.prefetch[0], EffectiveK(spec)) < EffectiveK(spec)
  {
    if Expanded(spec.prefetch[0]) {
      n := SomeShort(spec);
      var i := WhichShort(spec, n);
    } else {
      n := Kept(spec.prefetch[0], EffectiveK(spec));
    }
  }

  /** With as many points as it keeps and one more, a single-lane source's own lane is
      that long. */
  lemma KeptLength(n: nat, src: Source, k: nat)
    requires Passes(src) && AcceptedSource(src, 0) && n == Kept(src, k)
    ensures SourceLane(Counting(), Flatten(Uneven(n)), src, k, 0).Ok?
    ensures |SourceLane(Counting(), Flatten(Uneven(n)), src, k, 0).value| == n
  {
    FlattenTwo(Upto(n), [n]);
    CountedLane(Flatten(Uneven(n)), src, k, 0);
  }

  lemma RootedDiverges(spec: Spec) returns (n: nat, parts: seq<seq<Lane>>)
    requires Rooted(spec) && Accepted(spec, 0) && !Exact(spec)
    ensures Distinct(Flatten(Uneven(n))) && TreeReplies(Counting(), Uneven(n), spec, parts)
    ensures Answer(Counting(), Flatten(Uneven(n)), spec, 0) != Ok(MergedNode(Counting(), parts, spec, 0))
  {
    if |spec.prefetch| == 1 {
      n, parts := SingleDiverges(spec);
    } else {
      n := SomeShort(spec);
      parts := TwoReplies(n, spec);
      NodeLength(n, parts, spec, 0, 0);
    }
  }

  /** Such a tree gets the answer of one index holding everything, on every engine and
      every partitioning, if and only if every single-lane fusion in it asks its leaf for
      at least as many entries as the coordinator keeps; at a root with one lane, up to
      the root's own limit. */
  lemma TreeExactIff(spec: Spec)
    requires Rooted(spec) && Accepted(spec, 0)
    ensures Exact(spec) <==>
            forall e, data, parts | Distinct(Flatten(data)) && TreeReplies(e, data, spec, parts) ::
              Answer(e, Flatten(data), spec, 0) == Ok(MergedNode(e, parts, spec, 0))
  {
    if Exact(spec) {
      forall e, data, parts | Distinct(Flatten(data)) && TreeReplies(e, data, spec, parts)
        ensures Answer(e, Flatten(data), spec, 0) == Ok(MergedNode(e, parts, spec, 0))
      {
        if |spec.prefetch| == 1 && !Expanded(spec.prefetch[0]) {
          SingleExact(e, data, parts, spec);
        } else {
          TreeShipped(e, data, spec, parts);
          TreeExact(e, data, parts, spec, 0, 0);
        }
      }
    } else {
      var n, parts := RootedDiverges(spec);
    }
  }
}
