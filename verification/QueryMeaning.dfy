/** What an answer to a query is, said without the functions that compute it: which
    hits a lane holds and in which order, what is folded with what, and to which size
    everything is cut. */
module QueryMeaning {
  import opened Store
  import opened Ranking
  import opened QueryTree
  import opened QueryLemmas
  import opened QueryMerge

  // ---------- orders ----------

  /** Smaller distance first, then smaller id. */
  predicate Nearer(a: Hit, b: Hit)
  {
    a.distance < b.distance || (a.distance == b.distance && a.id < b.id)
  }

  /** Higher score first, then smaller id. */
  predicate Stronger(a: Hit, b: Hit)
  {
    b.score < a.score || (a.score == b.score && a.id < b.id)
  }

  function Order(byScore: bool): (less: (Hit, Hit) -> bool)
  {
    if byScore then Stronger else Nearer
  }

  lemma BeforeIs(byScore: bool)
    ensures forall a, b :: Before(byScore)(a, b) <==> Order(byScore)(a, b)
  {}

  /** A top by one order is a top by any other that compares the same. */
  lemma SameTop<T(!new)>(less: (T, T) -> bool, other: (T, T) -> bool, s: seq<T>, n: nat, r: seq<T>)
    requires (forall a, b :: less(a, b) <==> other(a, b)) && IsTop(less, s, n, r)
    ensures IsTop(other, s, n, r)
  {
    var rest: seq<T> :| multiset(r) + multiset(rest) == multiset(s) && forall x, y :: x in r && y in rest ==> !less(y, x);
    assert Sorted(other, r);
    assert forall x, y :: x in r && y in rest ==> !other(y, x);
  }

  // ---------- lanes ----------

  /** `all` lists the points of `data` the leaf matches, each once, with their keys. */
  ghost predicate Matches(e: Engine, leaf: Leaf, data: seq<Id>, all: Lane)
  {
    && (forall h :: h in all <==> h.id in data && e.eval(leaf, h.id) == Some((h.distance, h.score)))
    && forall i, j :: 0 <= i < j < |all| ==> all[i].id != all[j].id
  }

  /** `lane` is a top `n`, by the leaf's order, of all the points it matches. */
  ghost predicate TopOf(e: Engine, leaf: Leaf, data: seq<Id>, n: nat, lane: Lane)
  {
    exists all :: Matches(e, leaf, data, all) && IsTop(Order(leaf.scoreDesc), all, n, lane)
  }

  lemma {:induction false} CandidatesMatch(e: Engine, leaf: Leaf, data: seq<Id>)
    requires Distinct(data)
    ensures Matches(e, leaf, data, Candidates(e, leaf, data))
  {
    if data != [] {
      var rest := data[1..];
      CandidatesMatch(e, leaf, rest);
      assert data == [data[0]] + rest;
      assert data[0] !in rest;
    }
  }

  lemma BestIsTopOf(e: Engine, leaf: Leaf, data: seq<Id>, n: nat)
    requires Distinct(data)
    ensures TopOf(e, leaf, data, n, Best(Before(leaf.scoreDesc), Candidates(e, leaf, data), n))
  {
    var all := Candidates(e, leaf, data);
    CandidatesMatch(e, leaf, data);
    BestIsTop(Before(leaf.scoreDesc), all, n);
    BeforeIs(leaf.scoreDesc);
    SameTop(Before(leaf.scoreDesc), Order(leaf.scoreDesc), all, n, Best(Before(leaf.scoreDesc), all, n));
  }

  // ---------- sizes ----------

  /** The size a query asks for, 10 by default. */
  function Limit(spec: Spec): (k: nat) { if spec.k > 0 then spec.k else 10 }

  /** The size of a leaf's lane: its own lane size, or its own size, or the query's and
      at least 50; never above 10000. */
  function LaneSize(leaf: Leaf, k: nat): (n: nat)
  {
    var n := if leaf.laneK > 0 then leaf.laneK else if leaf.k > 0 then leaf.k else if k < 50 then 50 else k;
    if n > 10000 then 10000 else n
  }

  // ---------- folds ----------

  /** The hits of this source compare by distance. */
  predicate ByDistance(src: Source)
  {
    match src
    case LeafSource(leaf) => !leaf.scoreDesc
    case SpecSource(sub) =>
      || (sub.mode == Rerank && !sub.root.scoreDesc)
      || (sub.mode != Rerank && |sub.prefetch| == 1 && ByDistance(sub.prefetch[0]))
    case NoSource => true
  }

  lemma {:induction false} OrientationIs(src: Source)
    ensures SourceOrientation(src) <==> !ByDistance(src)
  {
    if src.SpecSource? && |src.spec.prefetch| == 1 { OrientationIs(src.spec.prefetch[0]); }
  }

  // ---------- answers ----------

  ghost predicate SourceMeans(e: Engine, data: seq<Id>, src: Source, k: nat, lane: Lane)
    decreases src, 0
  {
    match src
    case LeafSource(leaf) => TopOf(e, leaf, data, LaneSize(leaf, k), lane)
    case SpecSource(sub) => Means(e, data, sub, lane)
    case NoSource => false
  }

  /** `lanes` are the lanes of the sources of `spec`. */
  ghost predicate LanesMean(e: Engine, data: seq<Id>, spec: Spec, lanes: seq<Lane>)
    decreases spec, 1
  {
    && |lanes| == |spec.prefetch|
    && forall i :: 0 <= i < |lanes| ==> SourceMeans(e, data, spec.prefetch[i], Limit(spec), lanes[i])
  }

  /** `r` is an answer to `spec` on `data`: the fusion of its sources' lanes, or what the
      scorer makes of them. */
  ghost predicate Means(e: Engine, data: seq<Id>, spec: Spec, r: Lane)
    decreases spec, 2
  {
    exists lanes :: LanesMean(e, data, spec, lanes) &&
      if spec.mode == Rerank then r == e.rerank(spec.root, lanes, Limit(spec))
      else |lanes| >= 1 && Fused(e, lanes, ByDistance(spec.prefetch[0]), spec.blend, Limit(spec), r)
  }

  /** What one index computes is an answer. */
  lemma {:induction false} AnswerMeans(e: Engine, data: seq<Id>, spec: Spec, depth: nat)
    requires Distinct(data) && Accepted(spec, depth)
    ensures Answer(e, data, spec, depth).Ok? && Means(e, data, spec, Answer(e, data, spec, depth).value)
    decreases spec, 1
  {
    RunAccepts(e, data, spec, depth);
    LanesSplit(e, data, spec, 0, depth);
    var lanes := SourceLanes(e, data, spec, 0, depth).value;
    forall i | 0 <= i < |lanes| ensures SourceMeans(e, data, spec.prefetch[i], Limit(spec), lanes[i]) {
      assert AcceptedSource(spec.prefetch[i], depth);
      LaneMeans(e, data, spec.prefetch[i], EffectiveK(spec), depth);
    }
    assert LanesMean(e, data, spec, lanes);
    OrientationIs(spec.prefetch[0]);
    if spec.mode == Fusion { FuseMeans(e, lanes, ByDistance(spec.prefetch[0]), spec.blend, Limit(spec)); }
  }

  lemma {:induction false} LaneMeans(e: Engine, data: seq<Id>, src: Source, k: nat, depth: nat)
    requires Distinct(data) && AcceptedSource(src, depth)
    ensures SourceLane(e, data, src, k, depth).Ok?
    ensures SourceMeans(e, data, src, k, SourceLane(e, data, src, k, depth).value)
    decreases src, 0
  {
    match src
    case LeafSource(leaf) => BestIsTopOf(e, leaf, data, LeafPool(leaf, k));
    case SpecSource(sub) => AnswerMeans(e, data, sub, depth + 1);
  }

  // ---------- merges ----------

  function Size(src: Source, k: nat): (n: nat)
  {
    match src
    case LeafSource(leaf) => LaneSize(leaf, k)
    case SpecSource(sub) => if Limit(sub) > 10000 then 10000 else Limit(sub)
    case NoSource => if k < 50 then 50 else if k > 10000 then 10000 else k
  }

  /** `lane` is the merged lane of a source: of a nested fusion of two or more lanes its
      own merge, of any other a top of all the hits the partitions shipped for it. */
  ghost predicate MergedLaneMeans(e: Engine, parts: seq<seq<Lane>>, src: Source, k: nat, cursor: nat, lane: Lane)
    decreases src, 0
  {
    if Expanded(src) then MergedMeans(e, parts, src.spec, cursor, lane)
    else IsTop(Order(!ByDistance(src)), Flatten(Gather(parts, cursor)), Size(src, k), lane)
  }

  /** `lanes` are the merged lanes of the sources from `i` on, each behind the lanes of the
      one before. */
  ghost predicate MergedLanesMean(e: Engine, parts: seq<seq<Lane>>, spec: Spec, i: nat, cursor: nat, lanes: seq<Lane>)
    requires i <= |spec.prefetch|
    decreases spec, 1, |spec.prefetch| - i
  {
    && |lanes| == |spec.prefetch| - i
    && (i < |spec.prefetch| ==>
          && MergedLaneMeans(e, parts, spec.prefetch[i], Limit(spec), cursor, lanes[0])
          && MergedLanesMean(e, parts, spec, i + 1, cursor + SourceCount(spec.prefetch[i]), lanes[1..]))
  }

  /** `r` is the merge of what the partitions shipped for `spec` from `cursor` on: each
      source's merged lane, in the order they were shipped, fused once. */
  ghost predicate MergedMeans(e: Engine, parts: seq<seq<Lane>>, spec: Spec, cursor: nat, r: Lane)
    decreases spec, 2
  {
    exists lanes :: MergedLanesMean(e, parts, spec, 0, cursor, lanes) && |lanes| >= 1 &&
      Fused(e, lanes, ByDistance(spec.prefetch[0]), spec.blend, Limit(spec), r)
  }

  lemma {:induction false} MergedNodeMeans(e: Engine, parts: seq<seq<Lane>>, spec: Spec, cursor: nat)
    requires |spec.prefetch| > 0
    ensures MergedMeans(e, parts, spec, cursor, MergedNode(e, parts, spec, cursor))
    decreases spec, 2
  {
    hide MergedLanes, MergedLanesMean, Fused;
    LanesMerge(e, parts, spec, 0, cursor);
    OrientationIs(spec.prefetch[0]);
    FuseMeans(e, MergedLanes(e, parts, spec, 0, cursor), ByDistance(spec.prefetch[0]), spec.blend, Limit(spec));
  }

  lemma {:induction false} LanesMerge(e: Engine, parts: seq<seq<Lane>>, spec: Spec, i: nat, cursor: nat)
    requires i <= |spec.prefetch|
    ensures MergedLanesMean(e, parts, spec, i, cursor, MergedLanes(e, parts, spec, i, cursor))
    decreases spec, 1, |spec.prefetch| - i
  {
    hide IsTop, MergedSource, SourceCount, MergedMeans;
    if i < |spec.prefetch| {
      MergedStep(e, parts, spec, i, cursor);
      SourceMerges(e, parts, spec, i, cursor);
      LanesMerge(e, parts, spec, i + 1, cursor + SourceCount(spec.prefetch[i]));
      var lanes := MergedLanes(e, parts, spec, i, cursor);
      assert lanes[1..] == MergedLanes(e, parts, spec, i + 1, cursor + SourceCount(spec.prefetch[i]));
    }
  }

  lemma {:induction false} SourceMerges(e: Engine, parts: seq<seq<Lane>>, spec: Spec, i: nat, cursor: nat)
    requires i < |spec.prefetch|
    ensures MergedLaneMeans(e, parts, spec.prefetch[i], Limit(spec), cursor,
                            MergedSource(e, parts, spec.prefetch[i], EffectiveK(spec), cursor))
    decreases spec, 0
  {
    var src, k := spec.prefetch[i], EffectiveK(spec);
    if Expanded(src) {
      MergedNodeMeans(e, parts, src.spec, cursor);
    } else {
      var all, byScore := Flatten(Gather(parts, cursor)), SourceOrientation(src);
      OrientationIs(src);
      BestIsTop(Before(byScore), all, SourcePool(src, k));
      BeforeIs(byScore);
      SameTop(Before(byScore), Order(byScore), all, SourcePool(src, k), UnionLane(src, k, Gather(parts, cursor)));
    }
  }

  // ---------- limits ----------

  /** An accepted tree is at most four levels of nesting deep and 64 sources wide. */
  lemma Limits(spec: Spec, depth: nat)
    requires Accepted(spec, depth)
    ensures depth <= 4 && 1 <= |spec.prefetch| <= 64
  {}

  /** And may be both. */
  lemma LimitsReached(spec: Spec)
    requires spec.mode == Fusion && |spec.prefetch| == 64
    requires forall i :: 0 <= i < 64 ==> spec.prefetch[i].LeafSource? && spec.prefetch[i].leaf.kindOk
    ensures Accepted(spec, 4)
  {}
}
