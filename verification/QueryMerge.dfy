/** The coordinator's side of a distributed query: union the partitions' lanes, cut
    each to its pool, fold.  Proved to return what one index holding everything
    returns. */
module QueryMerge {
  import opened Store
  import opened Ranking
  import opened QueryTree
  import opened QueryLemmas

  // ---------- trees that distribute ----------

  predicate SourceDistributes(src: Source, k: nat)
    decreases src, 0
  {
    if Expanded(src) then Distributes(src.spec) else Passes(src) && Kept(src, k) == SourcePool(src, k)
  }

  /** Leaves, nested multi-lane fusions, and nested single-lane fusions that ask
      their leaf for at least as many entries as they keep. */
  predicate Distributes(spec: Spec)
    decreases spec, 1
  {
    && spec.mode == Fusion
    && forall i :: 0 <= i < |spec.prefetch| ==> SourceDistributes(spec.prefetch[i], EffectiveK(spec))
  }

  // ---------- lanes across partitions ----------

  function LaneAt(lanes: seq<Lane>, c: nat): (lane: Lane) { if c < |lanes| then lanes[c] else [] }

  function Gather(parts: seq<seq<Lane>>, c: nat): (r: seq<Lane>)
    ensures |r| == |parts|
  {
    seq(|parts|, p requires 0 <= p < |parts| => LaneAt(parts[p], c))
  }

  lemma {:induction false} FlattenSnoc<T>(s: seq<seq<T>>, x: seq<T>)
    ensures Flatten(s + [x]) == Flatten(s) + x
  {
    if s == [] {
      assert [x][1..] == [];
      assert s + [x] == [x];
    } else {
      assert (s + [x])[1..] == s[1..] + [x];
      FlattenSnoc(s[1..], x);
    }
  }

  lemma {:induction false} FlattenEmpty<T>(parts: seq<seq<T>>)
    requires forall p :: 0 <= p < |parts| ==> parts[p] == []
    ensures Flatten(parts) == []
  {
    if parts != [] { FlattenEmpty(parts[1..]); }
  }

  lemma GatherSnoc(parts: seq<seq<Lane>>, n: nat, c: nat)
    requires n < |parts|
    ensures Flatten(Gather(parts[..n + 1], c)) == Flatten(Gather(parts[..n], c)) + LaneAt(parts[n], c)
  {
    assert Gather(parts[..n + 1], c) == Gather(parts[..n], c) + [LaneAt(parts[n], c)];
    FlattenSnoc(Gather(parts[..n], c), LaneAt(parts[n], c));
  }

  /** Partition lists appended one after the other. */
  method Concat<T>(parts: seq<seq<T>>) returns (all: seq<T>)
    ensures all == Flatten(parts)
  {
    all := [];
    for p := 0 to |parts|
      invariant all == Flatten(parts[..p])
    {
      assert parts[..p + 1] == parts[..p] + [parts[p]];
      FlattenSnoc(parts[..p], parts[p]);
      all := all + parts[p];
    }
    assert parts[..|parts|] == parts;
  }

  /** `truncateLaneByOrientation`. */
  method TruncateLane(lane: Lane, scoreDesc: bool, pool: int) returns (r: Lane)
    ensures pool > 0 ==> r == Best(Before(scoreDesc), lane, pool) && IsTop(Before(scoreDesc), lane, pool, r)
    ensures pool <= 0 ==> Sorted(Before(scoreDesc), r) && multiset(r) == multiset(lane)
  {
    r := Sort(Before(scoreDesc), lane);
    SortSorts(Before(scoreDesc), lane);
    if pool > 0 && |r| > pool {
      r := r[..pool];
    }
    if pool > 0 { BestIsTop(Before(scoreDesc), lane, pool); }
  }

  /** The lane at one cursor position, appended over the partitions that have it. */
  method UnionAt(parts: seq<seq<Lane>>, cursor: nat) returns (lane: Lane)
    ensures lane == Flatten(Gather(parts, cursor))
  {
    lane := [];
    for p := 0 to |parts|
      invariant lane == Flatten(Gather(parts[..p], cursor))
    {
      GatherSnoc(parts, p, cursor);
      if cursor < |parts[p]| {
        lane := lane + parts[p][cursor];
      }
    }
    assert parts[..|parts|] == parts;
  }

  /** Every top-level lane, appended over the partitions. */
  method UnionLanes(parts: seq<seq<Lane>>, n: nat) returns (unioned: seq<Lane>)
    ensures |unioned| == n
    ensures forall i :: 0 <= i < n ==> unioned[i] == Flatten(Gather(parts, i))
  {
    unioned := seq(n, _ => []);
    for p := 0 to |parts|
      invariant |unioned| == n
      invariant forall i :: 0 <= i < n ==> unioned[i] == Flatten(Gather(parts[..p], i))
    {
      ghost var before := unioned;
      var i := 0;
      while i < n && i < |parts[p]|
        invariant i <= n && i <= |parts[p]|
        invariant |unioned| == n
        invariant forall j :: 0 <= j < i ==> unioned[j] == before[j] + parts[p][j]
        invariant forall j :: i <= j < n ==> unioned[j] == before[j]
      {
        unioned := unioned[i := unioned[i] + parts[p][i]];
        i := i + 1;
      }
      forall j | 0 <= j < n ensures unioned[j] == Flatten(Gather(parts[..p + 1], j)) {
        GatherSnoc(parts, p, j);
      }
    }
    assert parts[..|parts|] == parts;
  }

  /** `foldUnionedLanes`. */
  method FoldUnionedLanes(e: Engine, lanes: seq<Lane>, scoreDesc: bool, blend: Blend, k: int) returns (fused: Lane)
    ensures fused == FuseLanes(e, lanes, scoreDesc, blend, k)
    ensures |lanes| == 0 ==> fused == []
    ensures |lanes| > 0 && k > 0 ==> Fused(e, lanes, !scoreDesc, blend, k, fused)
  {
    if |lanes| > 0 && k > 0 { FuseMeans(e, lanes, !scoreDesc, blend, k); }
    if |lanes| == 0 { return []; }
    if |lanes| == 1 {
      fused := lanes[0];
      if k > 0 && |fused| > k { fused := fused[..k]; }
      return;
    }
    if scoreDesc {
      fused := e.fuseScores(lanes[0], lanes[1], blend, k);
    } else {
      fused := e.fuse(lanes[0], lanes[1], blend, k);
    }
    for i := 2 to |lanes|
      invariant fused == FuseUpTo(e, lanes, scoreDesc, blend, k, i)
    {
      fused := e.fuseScores(fused, lanes[i], blend, k);
    }
  }

  // ---------- assembling a node from its sources ----------

  lemma {:induction false} LanesAssemble(e: Engine, data: seq<Id>, spec: Spec, lanes: seq<Lane>, i: nat, depth: nat)
    requires i <= |spec.prefetch| == |lanes|
    requires forall j :: i <= j < |lanes| ==> SourceLane(e, data, spec.prefetch[j], EffectiveK(spec), depth) == Ok(lanes[j])
    ensures SourceLanes(e, data, spec, i, depth) == Ok(lanes[i..])
    decreases |lanes| - i
  {
    if i < |lanes| {
      LanesAssemble(e, data, spec, lanes, i + 1, depth);
      assert lanes[i..] == [lanes[i]] + lanes[i + 1..];
      assert SourceLane(e, data, spec.prefetch[i], EffectiveK(spec), depth) == Ok(lanes[i]);
      assert SourceLanes(e, data, spec, i, depth) == Ok([lanes[i]] + lanes[i + 1..]);
    } else {
      assert lanes[i..] == [];
    }
  }

  /** A fusion node run from its sources' lanes. */
  lemma NodeAssembles(e: Engine, data: seq<Id>, spec: Spec, lanes: seq<Lane>, depth: nat)
    requires Accepted(spec, depth) && spec.mode == Fusion && |spec.prefetch| == |lanes|
    requires forall j :: 0 <= j < |lanes| ==> SourceLane(e, data, spec.prefetch[j], EffectiveK(spec), depth) == Ok(lanes[j])
    ensures Run(e, data, spec, depth) ==
            Ok(QueryResult(lanes, FuseLanes(e, lanes, SourceOrientation(spec.prefetch[0]), spec.blend, EffectiveK(spec))))
  {
    LanesAssemble(e, data, spec, lanes, 0, depth);
    assert lanes[0..] == lanes;
    RunAccepts(e, data, spec, depth);
  }

  lemma {:induction false} LanesSplit(e: Engine, data: seq<Id>, spec: Spec, i: nat, depth: nat)
    requires i <= |spec.prefetch| && SourceLanes(e, data, spec, i, depth).Ok?
    ensures var lanes := SourceLanes(e, data, spec, i, depth).value;
      && |lanes| == |spec.prefetch| - i
      && forall j :: i <= j < |spec.prefetch| ==> SourceLane(e, data, spec.prefetch[j], EffectiveK(spec), depth) == Ok(lanes[j - i])
    decreases |spec.prefetch| - i
  {
    if i < |spec.prefetch| { LanesSplit(e, data, spec, i + 1, depth); }
  }

  // ---------- flat fusion ----------

  /** Every partition replied with the top-level lanes of its own run. */
  ghost predicate FlatReplies(e: Engine, data: seq<seq<Id>>, spec: Spec, parts: seq<seq<Lane>>)
  {
    && |parts| == |data|
    && forall p :: 0 <= p < |data| ==> Run(e, data[p], spec, 0).Ok? && Run(e, data[p], spec, 0).value.lanes == parts[p]
  }

  lemma FlatLanes(e: Engine, data: seq<seq<Id>>, spec: Spec, parts: seq<seq<Lane>>, i: nat)
    requires Accepted(spec, 0) && spec.mode == Fusion && i < |spec.prefetch|
    requires FlatReplies(e, data, spec, parts)
    ensures LanesOf(e, data, spec.prefetch[i], EffectiveK(spec), 0, Gather(parts, i))
  {
    forall p | 0 <= p < |data| ensures SourceLane(e, data[p], spec.prefetch[i], EffectiveK(spec), 0) == Ok(Gather(parts, i)[p]) {
      LanesSplit(e, data[p], spec, 0, 0);
    }
  }

  /** Each top-level lane's union, cut to its source's pool. */
  function FlatUnions(parts: seq<seq<Lane>>, spec: Spec, k: nat): (r: seq<Lane>)
    ensures |r| == |spec.prefetch|
  {
    seq(|spec.prefetch|, i requires 0 <= i < |spec.prefetch| => UnionLane(spec.prefetch[i], k, Gather(parts, i)))
  }

  predicate IsFlat(spec: Spec)
  {
    forall i :: 0 <= i < |spec.prefetch| ==> !Expanded(spec.prefetch[i])
  }

  /** On the replies of any partitioning of `data`, folding the cut unions gives what
      one index holding all of it answers. */
  lemma FlatExact(e: Engine, data: seq<seq<Id>>, parts: seq<seq<Lane>>, spec: Spec)
    requires Accepted(spec, 0) && Distributes(spec) && IsFlat(spec) && FlatReplies(e, data, spec, parts)
    ensures Answer(e, Flatten(data), spec, 0) ==
            Ok(FuseLanes(e, FlatUnions(parts, spec, EffectiveK(spec)), SourceOrientation(spec.prefetch[0]), spec.blend, EffectiveK(spec)))
  {
    var k, lanes := EffectiveK(spec), FlatUnions(parts, spec, EffectiveK(spec));
    forall i | 0 <= i < |lanes| ensures SourceLane(e, Flatten(data), spec.prefetch[i], k, 0) == Ok(lanes[i]) {
      assert AcceptedSource(spec.prefetch[i], 0) && SourceDistributes(spec.prefetch[i], k);
      FlatLanes(e, data, spec, parts, i);
      UnionExact(e, data, spec.prefetch[i], k, 0, Gather(parts, i));
    }
    NodeAssembles(e, Flatten(data), spec, lanes, 0);
  }

  /** `fusionMergeFanOut`: union every lane, cut it, fold once. */
  method FusionMerge(e: Engine, parts: seq<seq<Lane>>, spec: Spec, k: nat) returns (r: Lane)
    ensures |spec.prefetch| == 0 ==> r == []
    ensures |spec.prefetch| > 0 ==>
            r == FuseLanes(e, FlatUnions(parts, spec, k), SourceOrientation(spec.prefetch[0]), spec.blend, k)
  {
    if |spec.prefetch| == 0 { return []; }
    var n := |spec.prefetch|;
    var unioned := UnionLanes(parts, n);
    for i := 0 to n
      invariant |unioned| == n
      invariant forall j :: 0 <= j < i ==> unioned[j] == UnionLane(spec.prefetch[j], k, Gather(parts, j))
      invariant forall j :: i <= j < n ==> unioned[j] == Flatten(Gather(parts, j))
    {
      var cut := TruncateLane(unioned[i], SourceOrientation(spec.prefetch[i]), SourcePool(spec.prefetch[i], k));
      unioned := unioned[i := cut];
    }
    assert unioned == FlatUnions(parts, spec, k);
    r := FoldUnionedLanes(e, unioned, SourceOrientation(spec.prefetch[0]), spec.blend, k);
  }

  // ---------- the recursive tree fold ----------

  predicate SliceAt(lanes: seq<Lane>, c: nat, want: seq<Lane>)
  {
    c + |want| <= |lanes| && lanes[c..c + |want|] == want
  }

  /** From `cursor` on, every partition's lane list holds what it ships for
      sources `i..` of `spec`. */
  ghost predicate Shipped(e: Engine, data: seq<seq<Id>>, parts: seq<seq<Lane>>, spec: Spec, i: nat, depth: nat, cursor: nat)
    requires i <= |spec.prefetch|
  {
    && |parts| == |data|
    && forall p :: 0 <= p < |data| ==>
         && CollectFrom(e, data[p], spec, i, depth).Ok?
         && SliceAt(parts[p], cursor, CollectFrom(e, data[p], spec, i, depth).value)
  }

  lemma ShippedLane(e: Engine, data: seq<seq<Id>>, parts: seq<seq<Lane>>, spec: Spec, i: nat, depth: nat, cursor: nat)
    requires i < |spec.prefetch| && !Expanded(spec.prefetch[i])
    requires Shipped(e, data, parts, spec, i, depth, cursor)
    ensures LanesOf(e, data, spec.prefetch[i], EffectiveK(spec), depth, Gather(parts, cursor))
    ensures Shipped(e, data, parts, spec, i + 1, depth, cursor + 1)
  {
    forall p | 0 <= p < |data|
      ensures SourceLane(e, data[p], spec.prefetch[i], EffectiveK(spec), depth) == Ok(Gather(parts, cursor)[p])
      ensures CollectFrom(e, data[p], spec, i + 1, depth).Ok?
      ensures SliceAt(parts[p], cursor + 1, CollectFrom(e, data[p], spec, i + 1, depth).value)
    {
      var all := CollectFrom(e, data[p], spec, i, depth).value;
      var lane := SourceLane(e, data[p], spec.prefetch[i], EffectiveK(spec), depth).value;
      var rest := CollectFrom(e, data[p], spec, i + 1, depth).value;
      assert all == [lane] + rest;
      SliceSplit(parts[p], cursor, [lane], rest);
      assert parts[p][cursor] == parts[p][cursor..cursor + 1][0];
    }
  }

  lemma ShippedSubtree(e: Engine, data: seq<seq<Id>>, parts: seq<seq<Lane>>, spec: Spec, i: nat, depth: nat, cursor: nat)
    requires i < |spec.prefetch| && Expanded(spec.prefetch[i])
    requires Shipped(e, data, parts, spec, i, depth, cursor)
    ensures Shipped(e, data, parts, spec.prefetch[i].spec, 0, depth + 1, cursor)
    ensures Shipped(e, data, parts, spec, i + 1, depth, cursor + LaneCount(spec.prefetch[i].spec, 0))
  {
    var sub := spec.prefetch[i].spec;
    forall p | 0 <= p < |data|
      ensures CollectFrom(e, data[p], sub, 0, depth + 1).Ok?
      ensures SliceAt(parts[p], cursor, CollectFrom(e, data[p], sub, 0, depth + 1).value)
      ensures CollectFrom(e, data[p], spec, i + 1, depth).Ok?
      ensures SliceAt(parts[p], cursor + LaneCount(sub, 0), CollectFrom(e, data[p], spec, i + 1, depth).value)
    {
      var first := Collect(e, data[p], sub, depth + 1);
      assert first == CollectFrom(e, data[p], sub, 0, depth + 1);
      CollectCounts(e, data[p], sub, 0, depth + 1);
      SliceSplit(parts[p], cursor, first.value, CollectFrom(e, data[p], spec, i + 1, depth).value);
    }
  }

  lemma SliceSplit(lanes: seq<Lane>, c: nat, a: seq<Lane>, b: seq<Lane>)
    requires SliceAt(lanes, c, a + b)
    ensures SliceAt(lanes, c, a) && SliceAt(lanes, c + |a|, b)
  {
    var whole := lanes[c..c + |a + b|];
    assert lanes[c..c + |a|] == whole[..|a|];
    assert lanes[c + |a|..c + |a| + |b|] == whole[|a|..];
  }

  // ---------- what the fold computes ----------

  /** The global lane of one source whose lanes start at `cursor`. */
  function MergedSource(e: Engine, parts: seq<seq<Lane>>, src: Source, k: nat, cursor: nat): (r: Lane)
    decreases src
  {
    if Expanded(src) then MergedNode(e, parts, src.spec, cursor) else UnionLane(src, k, Gather(parts, cursor))
  }

  /** The global lanes of sources `i..`, one behind the other. */
  function MergedLanes(e: Engine, parts: seq<seq<Lane>>, spec: Spec, i: nat, cursor: nat): (r: seq<Lane>)
    requires i <= |spec.prefetch|
    ensures |r| == |spec.prefetch| - i
    decreases spec, 0, |spec.prefetch| - i
  {
    if i == |spec.prefetch| then []
    else [MergedSource(e, parts, spec.prefetch[i], EffectiveK(spec), cursor)] +
         MergedLanes(e, parts, spec, i + 1, cursor + SourceCount(spec.prefetch[i]))
  }

  /** A fusion node over the lanes from `cursor` on, with no cursor to share: each
      source's place is counted. */
  function MergedNode(e: Engine, parts: seq<seq<Lane>>, spec: Spec, cursor: nat): (r: Lane)
    requires |spec.prefetch| > 0
    decreases spec, 1
  {
    FuseLanes(e, MergedLanes(e, parts, spec, 0, cursor), SourceOrientation(spec.prefetch[0]), spec.blend, EffectiveK(spec))
  }

  /** No expanded node lies below the depth bound. */
  predicate ShallowEnough(spec: Spec, depth: nat)
  {
    && depth <= MAX_QUERY_DEPTH
    && forall i :: 0 <= i < |spec.prefetch| && Expanded(spec.prefetch[i]) ==> ShallowEnough(spec.prefetch[i].spec, depth + 1)
  }

  lemma {:induction false} AcceptedIsShallow(spec: Spec, depth: nat)
    requires Accepted(spec, depth)
    ensures ShallowEnough(spec, depth)
  {
    forall i | 0 <= i < |spec.prefetch| && Expanded(spec.prefetch[i]) ensures ShallowEnough(spec.prefetch[i].spec, depth + 1) {
      assert AcceptedSource(spec.prefetch[i], depth);
      AcceptedIsShallow(spec.prefetch[i].spec, depth + 1);
    }
  }

  /** Tree fusion is exact: on the lanes shipped by any partitioning of `data`, every
      node of the tree folds to what one index holding all of it answers. */
  lemma {:induction false} TreeExact(e: Engine, data: seq<seq<Id>>, parts: seq<seq<Lane>>, spec: Spec, depth: nat, cursor: nat)
    requires Accepted(spec, depth) && Distributes(spec) && Shipped(e, data, parts, spec, 0, depth, cursor)
    ensures Answer(e, Flatten(data), spec, depth) == Ok(MergedNode(e, parts, spec, cursor))
    decreases spec, 2
  {
    hide Shipped;
    var lanes := MergedLanes(e, parts, spec, 0, cursor);
    LanesExact(e, data, parts, spec, 0, depth, cursor);
    NodeAssembles(e, Flatten(data), spec, lanes, depth);
  }

  lemma {:induction false} LanesExact(e: Engine, data: seq<seq<Id>>, parts: seq<seq<Lane>>, spec: Spec, i: nat, depth: nat, cursor: nat)
    requires i <= |spec.prefetch| && Accepted(spec, depth) && Distributes(spec) && Shipped(e, data, parts, spec, i, depth, cursor)
    ensures var lanes := MergedLanes(e, parts, spec, i, cursor);
      forall j :: i <= j < |spec.prefetch| ==>
        SourceLane(e, Flatten(data), spec.prefetch[j], EffectiveK(spec), depth) == Ok(lanes[j - i])
    decreases spec, 1, |spec.prefetch| - i
  {
    hide Shipped, SourceLane, MergedSource, SourceCount;
    if i < |spec.prefetch| {
      SourceExact(e, data, parts, spec, i, depth, cursor);
      LanesExact(e, data, parts, spec, i + 1, depth, cursor + SourceCount(spec.prefetch[i]));
    }
  }

  lemma {:induction false} SourceExact(e: Engine, data: seq<seq<Id>>, parts: seq<seq<Lane>>, spec: Spec, i: nat, depth: nat, cursor: nat)
    requires i < |spec.prefetch| && Accepted(spec, depth) && Distributes(spec) && Shipped(e, data, parts, spec, i, depth, cursor)
    ensures SourceLane(e, Flatten(data), spec.prefetch[i], EffectiveK(spec), depth) ==
            Ok(MergedSource(e, parts, spec.prefetch[i], EffectiveK(spec), cursor))
    ensures Shipped(e, data, parts, spec, i + 1, depth, cursor + SourceCount(spec.prefetch[i]))
    decreases spec, 0
  {
    hide Shipped, Run, MergedNode, UnionLane;
    var src := spec.prefetch[i];
    assert AcceptedSource(src, depth) && SourceDistributes(src, EffectiveK(spec));
    if Expanded(src) {
      ShippedSubtree(e, data, parts, spec, i, depth, cursor);
      TreeExact(e, data, parts, src.spec, depth + 1, cursor);
    } else {
      ShippedLane(e, data, parts, spec, i, depth, cursor);
      UnionExact(e, data, src, EffectiveK(spec), depth, Gather(parts, cursor));
    }
  }

  lemma NothingLeft(e: Engine, parts: seq<seq<Lane>>, spec: Spec, cursor: nat)
    ensures MergedLanes(e, parts, spec, |spec.prefetch|, cursor) == [] && LaneCount(spec, |spec.prefetch|) == 0
  {}

  lemma MergedStep(e: Engine, parts: seq<seq<Lane>>, spec: Spec, i: nat, cursor: nat)
    requires i < |spec.prefetch|
    ensures MergedLanes(e, parts, spec, i, cursor) ==
            [MergedSource(e, parts, spec.prefetch[i], EffectiveK(spec), cursor)] +
            MergedLanes(e, parts, spec, i + 1, cursor + SourceCount(spec.prefetch[i]))
    ensures LaneCount(spec, i) == SourceCount(spec.prefetch[i]) + LaneCount(spec, i + 1)
  {}

  /** `mergeTreeFusionNode`, with the shared cursor passed in and out: it computes the
      node over the lanes from `cursor` on, and leaves the cursor past exactly the
      lanes the node ships. */
  method MergeTreeNode(e: Engine, parts: seq<seq<Lane>>, spec: Spec, depth: nat, cursor: nat)
    returns (r: Result<Lane>, next: nat)
    requires |spec.prefetch| > 0
    ensures r.Ok? <==> ShallowEnough(spec, depth)
    ensures r.Err? ==> r.error == TooDeep
    ensures r.Ok? ==> r.value == MergedNode(e, parts, spec, cursor) && next == cursor + LaneCount(spec, 0)
    decreases spec
  {
    hide MergedLanes, MergedSource, LaneCount, SourceCount, FuseLanes;
    next := cursor;
    if depth > MAX_QUERY_DEPTH { return Err(TooDeep), next; }
    var lanes: seq<Lane> := [];
    for i := 0 to |spec.prefetch|
      invariant next + LaneCount(spec, i) == cursor + LaneCount(spec, 0)
      invariant lanes + MergedLanes(e, parts, spec, i, next) == MergedLanes(e, parts, spec, 0, cursor)
      invariant forall j :: 0 <= j < i && Expanded(spec.prefetch[j]) ==> ShallowEnough(spec.prefetch[j].spec, depth + 1)
    {
      MergedStep(e, parts, spec, i, next);
      var lane;
      lane, next := MergeSource(e, parts, spec.prefetch[i], EffectiveK(spec), depth, next);
      if lane.Err? { return lane, next; }
      lanes := lanes + [lane.value];
    }
    NothingLeft(e, parts, spec, next);
    assert lanes == MergedLanes(e, parts, spec, 0, cursor);
    var fused := FoldUnionedLanes(e, lanes, SourceOrientation(spec.prefetch[0]), spec.blend, EffectiveK(spec));
    r := Ok(fused);
  }

  /** One source of a node: recurse into an expanded one, otherwise union the lane at
      the cursor over the partitions and cut it. */
  method MergeSource(e: Engine, parts: seq<seq<Lane>>, src: Source, k: nat, depth: nat, cursor: nat)
    returns (r: Result<Lane>, next: nat)
    ensures r.Ok? <==> (Expanded(src) ==> ShallowEnough(src.spec, depth + 1))
    ensures r.Err? ==> r.error == TooDeep
    ensures r.Ok? ==> r.value == MergedSource(e, parts, src, k, cursor) && next == cursor + SourceCount(src)
    decreases src
  {
    hide MergedNode, ShallowEnough;
    if Expanded(src) {
      r, next := MergeTreeNode(e, parts, src.spec, depth + 1, cursor);
    } else {
      var lane := UnionAt(parts, cursor);
      lane := TruncateLane(lane, SourceOrientation(src), SourcePool(src, k));
      r, next := Ok(lane), cursor + 1;
    }
  }
}
