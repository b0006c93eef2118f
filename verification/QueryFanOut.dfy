/** A whole distributed query: what each partition replies, and the merge the
    coordinator picks. */
module QueryFanOut {
  import opened Store
  import opened Ranking
  import opened QueryTree
  import opened QueryLemmas
  import opened QueryMerge
  import opened QueryMeaning

  /** One partition's reply.  The wire carries a fusion's lanes or a rerank's result,
      never both; a tree with a nested multi-lane fusion ships its tree lanes. */
  function Reply(e: Engine, data: seq<Id>, spec: Spec): (r: Result<QueryResult>)
  {
    if HasNestedFusion(spec) then
      (match Collect(e, data, spec, 0)
       case Ok(lanes) => Ok(QueryResult(lanes, []))
       case Err(x) => Err(x))
    else
      match Run(e, data, spec, 0)
      case Ok(q) => Ok(if spec.mode == Rerank then QueryResult([], q.fused) else QueryResult(q.lanes, []))
      case Err(x) => Err(x)
  }

  lemma ReplyAccepts(e: Engine, data: seq<Id>, spec: Spec)
    ensures Reply(e, data, spec).Ok? <==> Accepted(spec, 0)
  {
    RunAccepts(e, data, spec, 0);
    CollectAccepts(e, data, spec, 0);
  }

  ghost predicate Replies(e: Engine, data: seq<seq<Id>>, spec: Spec, parts: seq<QueryResult>)
  {
    && |parts| == |data|
    && forall p :: 0 <= p < |data| ==> Reply(e, data[p], spec) == Ok(parts[p])
  }

  /** `cluster.FanOut`: every partition's reply, or the first error. */
  method FanOut(e: Engine, data: seq<seq<Id>>, spec: Spec) returns (r: Result<seq<QueryResult>>)
    requires |data| > 0
    ensures r.Ok? <==> Accepted(spec, 0)
    ensures r.Ok? ==> Replies(e, data, spec, r.value)
  {
    var parts: seq<QueryResult> := [];
    for p := 0 to |data|
      invariant |parts| == p
      invariant p > 0 ==> Accepted(spec, 0)
      invariant forall q :: 0 <= q < p ==> Reply(e, data[q], spec) == Ok(parts[q])
    {
      ReplyAccepts(e, data[p], spec);
      var reply := Reply(e, data[p], spec);
      if reply.Err? { return Err(reply.error); }
      parts := parts + [reply.value];
    }
    r := Ok(parts);
  }

  function LanesOfEach(parts: seq<QueryResult>): (r: seq<seq<Lane>>)
    ensures |r| == |parts|
  {
    seq(|parts|, p requires 0 <= p < |parts| => parts[p].lanes)
  }

  function FusedOfEach(parts: seq<QueryResult>): (r: seq<Lane>)
    ensures |r| == |parts|
  {
    seq(|parts|, p requires 0 <= p < |parts| => parts[p].fused)
  }

  /** `rerankMergeFanOut`: the root-order top `k` of the partitions' candidates; all of them
      when `k` sets no limit. */
  method RerankMerge(parts: seq<QueryResult>, root: Leaf, k: int) returns (r: Lane)
    ensures k > 0 ==> r == Best(Before(root.scoreDesc), Flatten(FusedOfEach(parts)), k)
    ensures k > 0 ==> IsTop(Before(root.scoreDesc), Flatten(FusedOfEach(parts)), k, r)
    ensures k <= 0 ==> Sorted(Before(root.scoreDesc), r) && multiset(r) == multiset(Flatten(FusedOfEach(parts)))
  {
    var all := Concat(FusedOfEach(parts));
    r := TruncateLane(all, root.scoreDesc, k);
  }

  /** `treeFusionMergeFanOutCursor`. */
  method TreeFusionMerge(e: Engine, ghost data: seq<seq<Id>>, parts: seq<seq<Lane>>, spec: Spec)
    returns (r: Result<Lane>, cursor: nat)
    requires |spec.prefetch| > 0
    ensures r.Ok? <==> ShallowEnough(spec, 0)
    ensures r.Ok? ==> r.value == MergedNode(e, parts, spec, 0) && cursor == LaneCount(spec, 0)
    ensures Accepted(spec, 0) && Distributes(spec) && TreeReplies(e, data, spec, parts)
            ==> && r == Answer(e, Flatten(data), spec, 0)
                && forall p :: 0 <= p < |parts| ==> cursor == |parts[p]|
  {
    r, cursor := MergeTreeNode(e, parts, spec, 0, 0);
    if Accepted(spec, 0) && Distributes(spec) && TreeReplies(e, data, spec, parts) {
      AcceptedIsShallow(spec, 0);
      TreeShipped(e, data, spec, parts);
      TreeExact(e, data, parts, spec, 0, 0);
    }
  }

  ghost predicate TreeReplies(e: Engine, data: seq<seq<Id>>, spec: Spec, parts: seq<seq<Lane>>)
  {
    && |parts| == |data|
    && forall p :: 0 <= p < |data| ==> Collect(e, data[p], spec, 0) == Ok(parts[p])
  }

  lemma TreeShipped(e: Engine, data: seq<seq<Id>>, spec: Spec, parts: seq<seq<Lane>>)
    requires spec.mode == Fusion && TreeReplies(e, data, spec, parts)
    ensures Shipped(e, data, parts, spec, 0, 0, 0)
    ensures forall p :: 0 <= p < |parts| ==> |parts[p]| == LaneCount(spec, 0)
  {
    forall p | 0 <= p < |data|
      ensures CollectFrom(e, data[p], spec, 0, 0) == Ok(parts[p])
      ensures |parts[p]| == LaneCount(spec, 0)
      ensures SliceAt(parts[p], 0, parts[p])
    {
      assert Collect(e, data[p], spec, 0) == CollectFrom(e, data[p], spec, 0, 0);
      CollectCounts(e, data[p], spec, 0, 0);
      assert parts[p][0..0 + |parts[p]|] == parts[p];
    }
  }

  /** The merge that suits the tree, given every partition's reply. */
  method MergeReplies(e: Engine, ghost data: seq<seq<Id>>, parts: seq<QueryResult>, spec: Spec) returns (r: Result<Lane>)
    requires Accepted(spec, 0) && Replies(e, data, spec, parts)
    ensures r.Ok?
    ensures Distributes(spec) ==> r == Answer(e, Flatten(data), spec, 0)
    ensures spec.mode == Rerank ==> r.value == Best(Before(spec.root.scoreDesc), Flatten(FusedOfEach(parts)), EffectiveK(spec))
    ensures spec.mode == Fusion ==> MergedMeans(e, LanesOfEach(parts), spec, 0, r.value)
  {
    MergedNodeMeans(e, LanesOfEach(parts), spec, 0);
    AcceptedIsShallow(spec, 0);
    var lanes := LanesOfEach(parts);
    if spec.mode == Rerank {
      var top := RerankMerge(parts, spec.root, EffectiveK(spec));
      r := Ok(top);
    } else if HasNestedFusion(spec) {
      assert TreeReplies(e, data, spec, lanes);
      var cursor;
      r, cursor := TreeFusionMerge(e, data, lanes, spec);
    } else {
      assert FlatReplies(e, data, spec, lanes);
      if Distributes(spec) { FlatExact(e, data, lanes, spec); }
      FlatIsMerged(e, lanes, spec, 0);
      assert MergedLanes(e, lanes, spec, 0, 0) == FlatUnions(lanes, spec, EffectiveK(spec));
      var fused := FusionMerge(e, lanes, spec, EffectiveK(spec));
      r := Ok(fused);
    }
  }

  /** Where nothing is expanded the counted cursor is the source's index. */
  lemma {:induction false} FlatIsMerged(e: Engine, parts: seq<seq<Lane>>, spec: Spec, i: nat)
    requires i <= |spec.prefetch| && IsFlat(spec)
    ensures MergedLanes(e, parts, spec, i, i) == FlatUnions(parts, spec, EffectiveK(spec))[i..]
    decreases |spec.prefetch| - i
  {
    if i < |spec.prefetch| { FlatIsMerged(e, parts, spec, i + 1); }
  }

  // ---------- reranks ----------

  /** What each partition's index would answer by itself. */
  function AnswerOfEach(e: Engine, data: seq<seq<Id>>, spec: Spec): (r: seq<Lane>)
    ensures |r| == |data|
  {
    seq(|data|, p requires 0 <= p < |data| =>
      match Answer(e, data[p], spec, 0)
      case Ok(lane) => lane
      case Err(_) => [])
  }

  /** The reranked results the replies carry: those, unless the tree holds a nested
      multi-lane fusion. */
  function ReplyOfEach(e: Engine, data: seq<seq<Id>>, spec: Spec): (r: seq<Lane>)
    ensures |r| == |data|
  {
    seq(|data|, p requires 0 <= p < |data| =>
      match Reply(e, data[p], spec)
      case Ok(q) => q.fused
      case Err(_) => [])
  }

  /** What a fanned-out rerank returns. */
  function RerankAnswer(e: Engine, data: seq<seq<Id>>, spec: Spec): (r: Lane)
  {
    Best(Before(spec.root.scoreDesc), Flatten(ReplyOfEach(e, data, spec)), EffectiveK(spec))
  }

  lemma ReplyCarries(e: Engine, data: seq<seq<Id>>, spec: Spec)
    requires spec.mode == Rerank && Accepted(spec, 0)
    ensures !HasNestedFusion(spec) ==> ReplyOfEach(e, data, spec) == AnswerOfEach(e, data, spec)
    ensures HasNestedFusion(spec) ==> Flatten(ReplyOfEach(e, data, spec)) == []
  {
    forall p | 0 <= p < |data|
      ensures ReplyOfEach(e, data, spec)[p] == if HasNestedFusion(spec) then [] else AnswerOfEach(e, data, spec)[p]
    {
      ReplyAccepts(e, data[p], spec);
      RunAccepts(e, data[p], spec, 0);
    }
    if HasNestedFusion(spec) { FlattenEmpty(ReplyOfEach(e, data, spec)); }
  }

  /** An engine under which every rerank finds one hit, whatever it is given. */
  function OneHit(): (e: Engine)
  {
    Engine((_, _) => None, (a, _, _, _) => a, (a, _, _, _) => a, (_, _, _) => [Hit(0, 0.0, 0.0)])
  }

  lemma OneHitAnswers(spec: Spec)
    requires spec.mode == Rerank && Accepted(spec, 0)
    ensures Flatten(AnswerOfEach(OneHit(), [[]], spec)) == [Hit(0, 0.0, 0.0)]
  {
    var each := AnswerOfEach(OneHit(), [[]], spec);
    RunAccepts(OneHit(), [], spec, 0);
    assert each[0] == [Hit(0, 0.0, 0.0)];
    assert each[1..] == [];
  }

  /** A fanned-out rerank returns the root-order top of the partitions' own reranked
      results, on every engine and all data, if and only if its tree holds no nested
      multi-lane fusion. */
  lemma RerankExactIff(spec: Spec)
    requires spec.mode == Rerank && Accepted(spec, 0)
    ensures !HasNestedFusion(spec) <==>
            forall e, data ::
              IsTop(Order(spec.root.scoreDesc), Flatten(AnswerOfEach(e, data, spec)), Limit(spec), RerankAnswer(e, data, spec))
  {
    if HasNestedFusion(spec) {
      OneHitAnswers(spec);
      ReplyCarries(OneHit(), [[]], spec);
      assert RerankAnswer(OneHit(), [[]], spec) == [];
      assert !IsTop(Order(spec.root.scoreDesc), Flatten(AnswerOfEach(OneHit(), [[]], spec)), Limit(spec), []);
    } else {
      forall e, data
        ensures IsTop(Order(spec.root.scoreDesc), Flatten(AnswerOfEach(e, data, spec)), Limit(spec), RerankAnswer(e, data, spec))
      {
        ReplyCarries(e, data, spec);
        RerankMeans(e, data, spec);
      }
    }
  }

  // ---------- the whole query ----------

  /** `queryFanOut`.  Whatever the partitioning, a tree is answered exactly when one
      index accepts it, and a tree that distributes gets the answer of one index
      holding the same points in any order, which is what the tree means on them.  For a
      rerank, `RerankExactIff` says what `RerankAnswer` is worth. */
  method QueryFanOut(e: Engine, data: seq<seq<Id>>, spec: Spec, ghost whole: seq<Id>) returns (r: Result<Lane>)
    requires |data| > 0
    ensures r.Ok? <==> Accepted(spec, 0)
    ensures Distinct(whole) && multiset(whole) == multiset(Flatten(data)) && Distributes(spec) && r.Ok?
            ==> r == Answer(e, whole, spec, 0) && Means(e, whole, spec, r.value)
    ensures r.Ok? && spec.mode == Fusion ==>
            exists parts :: Replies(e, data, spec, parts) && MergedMeans(e, LanesOfEach(parts), spec, 0, r.value)
    ensures r.Ok? && spec.mode == Rerank ==> r.value == RerankAnswer(e, data, spec)
    ensures r.Ok? && spec.mode == Rerank && !HasNestedFusion(spec)
            ==> && IsTop(Order(spec.root.scoreDesc), Flatten(AnswerOfEach(e, data, spec)), Limit(spec), r.value)
                && forall p :: 0 <= p < |data| && Distinct(data[p]) ==> Means(e, data[p], spec, AnswerOfEach(e, data, spec)[p])
    ensures r.Ok? && spec.mode == Rerank && HasNestedFusion(spec) ==> r == Ok([])
  {
    var replies := FanOut(e, data, spec);
    if replies.Err? { return Err(replies.error); }
    r := MergeReplies(e, data, replies.value, spec);
    if Distinct(whole) && multiset(whole) == multiset(Flatten(data)) {
      RunPermuted(e, whole, Flatten(data), spec, 0);
      AnswerMeans(e, whole, spec, 0);
    }
    if spec.mode == Rerank {
      assert FusedOfEach(replies.value) == ReplyOfEach(e, data, spec);
      ReplyCarries(e, data, spec);
      RerankMeans(e, data, spec);
    }
  }

  lemma RerankMeans(e: Engine, data: seq<seq<Id>>, spec: Spec)
    requires spec.mode == Rerank && Accepted(spec, 0)
    ensures IsTop(Order(spec.root.scoreDesc), Flatten(ReplyOfEach(e, data, spec)), Limit(spec), RerankAnswer(e, data, spec))
    ensures forall p :: 0 <= p < |data| && Distinct(data[p]) ==> Means(e, data[p], spec, AnswerOfEach(e, data, spec)[p])
  {
    var all := Flatten(ReplyOfEach(e, data, spec));
    BestIsTop(Before(spec.root.scoreDesc), all, EffectiveK(spec));
    BeforeIs(spec.root.scoreDesc);
    SameTop(Before(spec.root.scoreDesc), Order(spec.root.scoreDesc), all, EffectiveK(spec), RerankAnswer(e, data, spec));
    forall p | 0 <= p < |data| && Distinct(data[p]) ensures Means(e, data[p], spec, AnswerOfEach(e, data, spec)[p]) {
      AnswerMeans(e, data[p], spec, 0);
    }
  }
}
