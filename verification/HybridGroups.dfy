/** Two-lane hybrid search and group-by search over partitions. */
module HybridGroups {
  import opened Store
  import opened Ranking
  import opened QueryTree
  import opened QueryLemmas
  import opened QueryMerge
  import opened QueryMeaning

  function DenseLeaf(tag: nat): (leaf: Leaf) { Leaf(tag, false, 0, 0, true, true) }

  function SparseLeaf(tag: nat): (leaf: Leaf) { Leaf(tag, true, 0, 0, true, true) }

  function TopHits(e: Engine, leaf: Leaf, data: seq<Id>, n: nat): (r: Lane)
  {
    Best(Before(leaf.scoreDesc), Candidates(e, leaf, data), n)
  }

  function TopHitsOfEach(e: Engine, leaf: Leaf, data: seq<seq<Id>>, n: nat): (r: seq<Lane>)
    ensures |r| == |data|
  {
    seq(|data|, p requires 0 <= p < |data| => TopHits(e, leaf, data[p], n))
  }

  /** The best `n` of the partitions' own best `n` are the best `n` of one index
      holding the same points. */
  lemma TopHitsExact(e: Engine, leaf: Leaf, data: seq<seq<Id>>, whole: seq<Id>, n: nat)
    requires Distinct(whole) && multiset(whole) == multiset(Flatten(data))
    ensures Best(Before(leaf.scoreDesc), Flatten(TopHitsOfEach(e, leaf, data, n)), n) == TopHits(e, leaf, whole, n)
  {
    var less := Before(leaf.scoreDesc);
    assert TopHitsOfEach(e, leaf, data, n) == BestOfEach(less, CandidatesOfEach(e, leaf, data), n);
    BestOfBests(less, CandidatesOfEach(e, leaf, data), n, n);
    CandidatesFlatten(e, leaf, data);
    CandidatesSeparated(e, leaf, whole);
    CandidatesPermute(e, leaf, whole, Flatten(data));
    SortPermuted(less, Candidates(e, leaf, whole), Candidates(e, leaf, Flatten(data)));
  }

  // ---------- hybrid ----------

  /** A missing dense or sparse part is an empty vector in the request. */
  datatype HybridQuery = HybridQuery(dense: Option<nat>, sparse: Option<nat>, denseK: int, sparseK: int, blend: Blend)

  function HybridPool(want: int, k: nat): (n: nat)
    ensures n > 0
  {
    if want > 0 then want else if k < 50 then 50 else k
  }

  function PartLane(e: Engine, leaf: Option<Leaf>, data: seq<Id>, n: nat): (r: Lane)
  {
    match leaf
    case None => []
    case Some(l) => TopHits(e, l, data, n)
  }

  function DensePart(q: HybridQuery): (r: Option<Leaf>)
  {
    match q.dense
    case None => None
    case Some(t) => Some(DenseLeaf(t))
  }

  function SparsePart(q: HybridQuery): (r: Option<Leaf>)
  {
    match q.sparse
    case None => None
    case Some(t) => Some(SparseLeaf(t))
  }

  /** The unfused lanes of one index. */
  function HybridLanes(e: Engine, data: seq<Id>, q: HybridQuery, k: nat): (r: (Lane, Lane))
  {
    if k == 0 then ([], [])
    else (PartLane(e, DensePart(q), data, HybridPool(q.denseK, k)), PartLane(e, SparsePart(q), data, HybridPool(q.sparseK, k)))
  }

  /** Both lanes into one answer: with no sparse part the dense lane alone, with no
      dense part the sparse lane alone. */
  function Combine(e: Engine, dense: Lane, sparse: Lane, q: HybridQuery, k: nat): (r: Lane)
  {
    if q.sparse.None? then Take(dense, k)
    else if q.dense.None? then Take(sparse, k)
    else e.fuse(dense, sparse, q.blend, k)
  }

  /** What one index answers. */
  function HybridSearch(e: Engine, data: seq<Id>, q: HybridQuery, k: nat): (r: Lane)
  {
    var lanes := HybridLanes(e, data, q, k);
    Combine(e, lanes.0, lanes.1, q, k)
  }

  function LanesOfEach(e: Engine, data: seq<seq<Id>>, q: HybridQuery, k: nat): (r: seq<(Lane, Lane)>)
    ensures |r| == |data|
  {
    seq(|data|, p requires 0 <= p < |data| => HybridLanes(e, data[p], q, k))
  }

  function Firsts(parts: seq<(Lane, Lane)>): (r: seq<Lane>)
    ensures |r| == |parts|
  {
    seq(|parts|, p requires 0 <= p < |parts| => parts[p].0)
  }

  function Seconds(parts: seq<(Lane, Lane)>): (r: seq<Lane>)
    ensures |r| == |parts|
  {
    seq(|parts|, p requires 0 <= p < |parts| => parts[p].1)
  }

  method UnionHybrid(parts: seq<(Lane, Lane)>) returns (allDense: Lane, allSparse: Lane)
    ensures allDense == Flatten(Firsts(parts)) && allSparse == Flatten(Seconds(parts))
  {
    allDense, allSparse := [], [];
    for p := 0 to |parts|
      invariant allDense == Flatten(Firsts(parts[..p])) && allSparse == Flatten(Seconds(parts[..p]))
    {
      assert Firsts(parts[..p + 1]) == Firsts(parts[..p]) + [parts[p].0];
      assert Seconds(parts[..p + 1]) == Seconds(parts[..p]) + [parts[p].1];
      FlattenSnoc(Firsts(parts[..p]), parts[p].0);
      FlattenSnoc(Seconds(parts[..p]), parts[p].1);
      allDense := allDense + parts[p].0;
      allSparse := allSparse + parts[p].1;
    }
    assert parts[..|parts|] == parts;
  }

  /** The size of a hybrid lane: what was asked for, or `k` and at least 50. */
  function HybridSize(want: int, k: nat): (n: nat) { if want > 0 then want else if k >= 50 then k else 50 }

  /** `lane` is the lane of one part of the query: nothing if the part is missing or
      nothing is asked for, otherwise a top of all its matches. */
  ghost predicate LaneOf(e: Engine, data: seq<Id>, part: Option<nat>, byScore: bool, n: nat, k: nat, lane: Lane)
  {
    if part.None? || k == 0 then lane == [] else TopOf(e, Leaf(part.value, byScore, 0, 0, true, true), data, n, lane)
  }

  /** What a hybrid answer is.  Without a sparse part: the nearest hits of the dense one.
      Without a dense part: the strongest of the sparse one.  With both: the fusion of the
      dense lane and the sparse lane, in that order. */
  ghost predicate HybridMeans(e: Engine, data: seq<Id>, q: HybridQuery, k: nat, r: Lane)
  {
    var denseK, sparseK := HybridSize(q.denseK, k), HybridSize(q.sparseK, k);
    if q.sparse.None? then LaneOf(e, data, q.dense, false, if denseK < k then denseK else k, k, r)
    else if q.dense.None? then LaneOf(e, data, q.sparse, true, if sparseK < k then sparseK else k, k, r)
    else exists d, s :: LaneOf(e, data, q.dense, false, denseK, k, d) && LaneOf(e, data, q.sparse, true, sparseK, k, s) &&
                        r == e.fuse(d, s, q.blend, k)
  }

  lemma PartMeans(e: Engine, data: seq<Id>, tag: nat, byScore: bool, n: nat, k: nat)
    requires Distinct(data)
    ensures var leaf := Leaf(tag, byScore, 0, 0, true, true);
      && TopOf(e, leaf, data, n, TopHits(e, leaf, data, n))
      && Take(TopHits(e, leaf, data, n), k) == TopHits(e, leaf, data, if n < k then n else k)
  {
    var leaf := Leaf(tag, byScore, 0, 0, true, true);
    BestIsTopOf(e, leaf, data, n);
    TakeTake(Sort(Before(byScore), Candidates(e, leaf, data)), n, k);
  }

  lemma HybridSearchMeans(e: Engine, data: seq<Id>, q: HybridQuery, k: nat)
    requires Distinct(data)
    ensures HybridMeans(e, data, q, k, HybridSearch(e, data, q, k))
  {
    hide TopHits, TopOf;
    var denseK, sparseK := HybridSize(q.denseK, k), HybridSize(q.sparseK, k);
    if q.dense.Some? {
      PartMeans(e, data, q.dense.value, false, denseK, k);
      PartMeans(e, data, q.dense.value, false, if denseK < k then denseK else k, k);
    }
    if q.sparse.Some? {
      PartMeans(e, data, q.sparse.value, true, sparseK, k);
      PartMeans(e, data, q.sparse.value, true, if sparseK < k then sparseK else k, k);
    }
    var lanes := HybridLanes(e, data, q, k);
    assert LaneOf(e, data, q.dense, false, denseK, k, lanes.0);
    assert LaneOf(e, data, q.sparse, true, sparseK, k, lanes.1);
  }

  /** `hybridFanOut`: for any partitioning, the answer of one index, and what a hybrid
      answer is. */
  method HybridFanOut(e: Engine, data: seq<seq<Id>>, q: HybridQuery, k: nat, ghost whole: seq<Id>) returns (fused: Lane)
    requires Distinct(whole) && multiset(whole) == multiset(Flatten(data))
    ensures fused == HybridSearch(e, whole, q, k)
    ensures HybridMeans(e, whole, q, k, fused)
  {
    HybridSearchMeans(e, whole, q, k);
    hide HybridLanes, LanesOfEach, Firsts, Seconds, Flatten, Sort, IsTop, HybridMeans;
    var denseK, sparseK := HybridPool(q.denseK, k), HybridPool(q.sparseK, k);
    var parts := LanesOfEach(e, data, q, k);
    var allDense, allSparse := UnionHybrid(parts);
    allDense := TruncateLane(allDense, false, denseK);
    allSparse := TruncateLane(allSparse, true, sparseK);
    HybridLanesExact(e, data, whole, q, k);
    if q.sparse.None? {
      fused := allDense;
      if |fused| > k { fused := fused[..k]; }
    } else if q.dense.None? {
      fused := allSparse;
      if |fused| > k { fused := fused[..k]; }
    } else {
      fused := e.fuse(allDense, allSparse, q.blend, k);
    }
  }

  lemma HybridLanesExact(e: Engine, data: seq<seq<Id>>, whole: seq<Id>, q: HybridQuery, k: nat)
    requires Distinct(whole) && multiset(whole) == multiset(Flatten(data))
    ensures var parts := LanesOfEach(e, data, q, k);
      && Best(Before(false), Flatten(Firsts(parts)), HybridPool(q.denseK, k)) == HybridLanes(e, whole, q, k).0
      && Best(Before(true), Flatten(Seconds(parts)), HybridPool(q.sparseK, k)) == HybridLanes(e, whole, q, k).1
  {
    var parts := LanesOfEach(e, data, q, k);
    assert Firsts(parts) == PartLaneOfEach(e, DensePart(q), data, HybridPool(q.denseK, k), k);
    assert Seconds(parts) == PartLaneOfEach(e, SparsePart(q), data, HybridPool(q.sparseK, k), k);
    HybridLaneExact(e, DensePart(q), data, whole, HybridPool(q.denseK, k), k);
    HybridLaneExact(e, SparsePart(q), data, whole, HybridPool(q.sparseK, k), k);
  }

  function PartLaneOfEach(e: Engine, leaf: Option<Leaf>, data: seq<seq<Id>>, n: nat, k: nat): (r: seq<Lane>)
    ensures |r| == |data|
  {
    seq(|data|, p requires 0 <= p < |data| => if k == 0 then [] else PartLane(e, leaf, data[p], n))
  }

  lemma HybridLaneExact(e: Engine, leaf: Option<Leaf>, data: seq<seq<Id>>, whole: seq<Id>, n: nat, k: nat)
    requires Distinct(whole) && multiset(whole) == multiset(Flatten(data))
    ensures k > 0 && leaf.Some? ==>
      Best(Before(leaf.value.scoreDesc), Flatten(PartLaneOfEach(e, leaf, data, n, k)), n) == PartLane(e, leaf, whole, n)
    ensures k == 0 || leaf.None? ==> Flatten(PartLaneOfEach(e, leaf, data, n, k)) == []
  {
    if k == 0 || leaf.None? {
      FlattenEmpty(PartLaneOfEach(e, leaf, data, n, k));
    } else {
      assert PartLaneOfEach(e, leaf, data, n, k) == TopHitsOfEach(e, leaf.value, data, n);
      TopHitsExact(e, leaf.value, data, whole, n);
    }
  }

  // ---------- groups ----------

  datatype GroupQuery = GroupQuery(tag: nat, groupSize: int, fetchK: int)

  function Wanted(k: nat, q: GroupQuery): (n: nat)
    ensures n >= k
  {
    if q.groupSize <= 1 then k else k * q.groupSize
  }

  /** How many candidates a group search looks at. */
  function FetchK(k: nat, q: GroupQuery): (n: nat)
    requires k > 0
    ensures n > 0 && n >= Wanted(k, q)
  {
    var want := Wanted(k, q);
    if q.fetchK >= want then q.fetchK else if 4 * want < 50 then 50 else 4 * want
  }

  /** What one index answers: its nearest candidates, grouped. */
  function SearchGroups<G>(e: Engine, group: (Lane, GroupQuery, int) -> seq<G>, data: seq<Id>, q: GroupQuery, k: int): (r: seq<G>)
  {
    if k <= 0 then [] else group(TopHits(e, DenseLeaf(q.tag), data, FetchK(k, q)), q, k)
  }

  /** The number of candidates: `fetchK` if it covers `k` groups of the asked size, and
      otherwise four times that and at least 50. */
  function GroupSize(k: nat, q: GroupQuery): (n: nat)
  {
    var want := k * if q.groupSize <= 0 then 1 else q.groupSize;
    if q.fetchK >= want then q.fetchK else if 4 * want >= 50 then 4 * want else 50
  }

  lemma FetchKIs(k: nat, q: GroupQuery)
    requires k > 0
    ensures FetchK(k, q) == GroupSize(k, q)
  {}

  /** What a group answer is: the grouping of the nearest candidates. */
  ghost predicate GroupsMean<G(!new)>(e: Engine, group: (Lane, GroupQuery, int) -> seq<G>, data: seq<Id>, q: GroupQuery, k: int, r: seq<G>)
  {
    if k <= 0 then r == []
    else exists pool :: TopOf(e, Leaf(q.tag, false, 0, 0, true, true), data, GroupSize(k, q), pool) && r == group(pool, q, k)
  }

  lemma SearchGroupsMean<G(!new)>(e: Engine, group: (Lane, GroupQuery, int) -> seq<G>, data: seq<Id>, q: GroupQuery, k: int)
    requires Distinct(data)
    ensures GroupsMean(e, group, data, q, k, SearchGroups(e, group, data, q, k))
  {
    if k > 0 {
      FetchKIs(k, q);
      BestIsTopOf(e, DenseLeaf(q.tag), data, FetchK(k, q));
    }
  }

  /** `groupFanOut`: for any partitioning, the answer of one index, and what a group
      answer is. */
  method GroupFanOut<G(!new)>(e: Engine, group: (Lane, GroupQuery, int) -> seq<G>, data: seq<seq<Id>>, q: GroupQuery, k: int, ghost whole: seq<Id>)
    returns (groups: seq<G>)
    requires Distinct(whole) && multiset(whole) == multiset(Flatten(data))
    ensures groups == SearchGroups(e, group, whole, q, k)
    ensures GroupsMean(e, group, whole, q, k, groups)
  {
    SearchGroupsMean(e, group, whole, q, k);
    hide FetchK, Wanted, GroupsMean;
    if k <= 0 { return []; }
    var fetchK := FetchK(k, q);
    var leaf := DenseLeaf(q.tag);
    var all := Concat(TopHitsOfEach(e, leaf, data, fetchK));
    all := TruncateLane(all, false, fetchK);
    TopHitsExact(e, leaf, data, whole, fetchK);
    groups := group(all, q, k);
  }
}
