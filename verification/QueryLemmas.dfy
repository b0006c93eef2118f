/** What holds of query trees on one index: which are accepted, how many lanes they
    ship, that the answer depends only on what is stored, and which sources can be
    computed one partition at a time. */
module QueryLemmas {
  import opened Store
  import opened Ranking
  import opened QueryTree

  ghost predicate Distinct(data: seq<Id>)
  {
    forall i, j :: 0 <= i < j < |data| ==> data[i] != data[j]
  }

  // ---------- which trees are accepted ----------

  /** The structural condition both walks of a tree enforce. */
  predicate Accepted(spec: Spec, depth: nat)
    decreases spec, 1
  {
    && depth <= MAX_QUERY_DEPTH
    && 1 <= |spec.prefetch| <= MAX_PREFETCH_SOURCES
    && spec.mode != OtherMode
    && (spec.mode == Rerank ==> spec.root.kindOk && spec.root.rootOk)
    && forall i :: 0 <= i < |spec.prefetch| ==> AcceptedSource(spec.prefetch[i], depth)
  }

  predicate AcceptedSource(src: Source, depth: nat)
    decreases src, 0
  {
    match src
    case LeafSource(leaf) => leaf.kindOk
    case SpecSource(sub) => Accepted(sub, depth + 1)
    case NoSource => false
  }

  /** A tree runs on an index exactly when it is accepted, whatever the index holds. */
  lemma {:induction false} RunAccepts(e: Engine, data: seq<Id>, spec: Spec, depth: nat)
    ensures Run(e, data, spec, depth).Ok? <==> Accepted(spec, depth)
    decreases spec, |spec.prefetch| + 1
  {
    SourceLanesAccept(e, data, spec, 0, depth);
    if |spec.prefetch| > 0 && forall src | src in spec.prefetch :: SourceOk(src) {
      assert forall i | 0 <= i < |spec.prefetch| :: SourceOk(spec.prefetch[i]);
    }
  }

  lemma {:induction false} SourceLanesAccept(e: Engine, data: seq<Id>, spec: Spec, i: nat, depth: nat)
    requires i <= |spec.prefetch|
    ensures (forall j :: i <= j < |spec.prefetch| ==> AcceptedSource(spec.prefetch[j], depth)) <==>
            SourceLanes(e, data, spec, i, depth).Ok? && forall j :: i <= j < |spec.prefetch| ==> SourceOk(spec.prefetch[j])
    decreases spec, |spec.prefetch| - i
  {
    if i < |spec.prefetch| {
      SourceLanesAccept(e, data, spec, i + 1, depth);
      var src := spec.prefetch[i];
      if src.SpecSource? { RunAccepts(e, data, src.spec, depth + 1); }
      assert SourceLane(e, data, src, EffectiveK(spec), depth).Ok? && SourceOk(src) <==> AcceptedSource(src, depth);
      assert SourceLanes(e, data, spec, i, depth).Ok? <==>
             SourceLane(e, data, src, EffectiveK(spec), depth).Ok? && SourceLanes(e, data, spec, i + 1, depth).Ok?;
    }
  }

  /** Shipping lanes succeeds on exactly the same trees. */
  lemma {:induction false} CollectAccepts(e: Engine, data: seq<Id>, spec: Spec, depth: nat)
    ensures Collect(e, data, spec, depth).Ok? <==> Accepted(spec, depth)
    decreases spec, |spec.prefetch| + 1
  {
    CollectFromAccepts(e, data, spec, 0, depth);
    RunAccepts(e, data, spec, depth);
  }

  lemma {:induction false} CollectFromAccepts(e: Engine, data: seq<Id>, spec: Spec, i: nat, depth: nat)
    requires i <= |spec.prefetch|
    ensures CollectFrom(e, data, spec, i, depth).Ok? <==>
            forall j :: i <= j < |spec.prefetch| ==> AcceptedSource(spec.prefetch[j], depth)
    decreases spec, |spec.prefetch| - i
  {
    if i < |spec.prefetch| {
      CollectFromAccepts(e, data, spec, i + 1, depth);
      if spec.prefetch[i].SpecSource? {
        RunAccepts(e, data, spec.prefetch[i].spec, depth + 1);
        CollectAccepts(e, data, spec.prefetch[i].spec, depth + 1);
      }
    }
  }

  // ---------- how many lanes a tree ships ----------

  function SourceCount(src: Source): (n: nat)
    ensures n > 0
    decreases src, 0
  {
    if Expanded(src) then LaneCount(src.spec, 0) else 1
  }

  /** Lanes shipped for sources `i..` of a fusion node. */
  function LaneCount(spec: Spec, i: nat): (n: nat)
    requires i <= |spec.prefetch|
    ensures n >= |spec.prefetch| - i
    decreases spec, |spec.prefetch| - i
  {
    if i == |spec.prefetch| then 0 else SourceCount(spec.prefetch[i]) + LaneCount(spec, i + 1)
  }

  lemma {:induction false} CollectCounts(e: Engine, data: seq<Id>, spec: Spec, i: nat, depth: nat)
    requires i <= |spec.prefetch| && CollectFrom(e, data, spec, i, depth).Ok?
    ensures |CollectFrom(e, data, spec, i, depth).value| == LaneCount(spec, i)
    decreases spec, |spec.prefetch| - i
  {
    if i < |spec.prefetch| {
      CollectCounts(e, data, spec, i + 1, depth);
      var src := spec.prefetch[i];
      if Expanded(src) { CollectCounts(e, data, src.spec, 0, depth + 1); }
    }
  }

  // ---------- the answer depends only on what is stored ----------

  lemma {:induction false} CandidatesConcat(e: Engine, leaf: Leaf, a: seq<Id>, b: seq<Id>)
    ensures Candidates(e, leaf, a + b) == Candidates(e, leaf, a) + Candidates(e, leaf, b)
  {
    if a == [] {
      assert a + b == b;
    } else {
      assert (a + b)[1..] == a[1..] + b;
      CandidatesConcat(e, leaf, a[1..], b);
    }
  }

  lemma {:induction false} CandidatesSeparated(e: Engine, leaf: Leaf, data: seq<Id>)
    requires Distinct(data)
    ensures Separated(Before(leaf.scoreDesc), Candidates(e, leaf, data))
  {
    if data != [] {
      CandidatesSeparated(e, leaf, data[1..]);
      var rest := Candidates(e, leaf, data[1..]);
      forall h | h in rest ensures h.id != data[0] {}
      if e.eval(leaf, data[0]).Some? {
        assert forall j | 0 <= j < |rest| :: rest[j] in rest;
      }
    }
  }

  lemma {:induction false} CandidatesPermute(e: Engine, leaf: Leaf, a: seq<Id>, b: seq<Id>)
    requires multiset(a) == multiset(b)
    ensures multiset(Candidates(e, leaf, a)) == multiset(Candidates(e, leaf, b))
  {
    hide Candidates;
    if a == [] {
      assert |multiset(b)| == 0;
    } else {
      assert a[0] in multiset(b);
      var k :| 0 <= k < |b| && b[k] == a[0];
      Without(b, k);
      TailContents(a);
      CandidatesPermute(e, leaf, a[1..], b[..k] + b[k + 1..]);
      CandidatesWithout(e, leaf, b, k);
      CandidatesWithout(e, leaf, a, 0);
      assert a[..0] + a[0 + 1..] == a[1..];
    }
  }

  lemma CandidatesWithout(e: Engine, leaf: Leaf, data: seq<Id>, k: nat)
    requires k < |data|
    ensures multiset(Candidates(e, leaf, data)) ==
            multiset(Candidates(e, leaf, data[..k] + data[k + 1..])) + multiset(Candidates(e, leaf, [data[k]]))
  {
    var pre, mid, post := data[..k], [data[k]], data[k + 1..];
    assert data == pre + (mid + post);
    CandidatesConcat(e, leaf, pre, mid + post);
    CandidatesConcat(e, leaf, mid, post);
    CandidatesConcat(e, leaf, pre, post);
  }

  lemma ExecLeafPermuted(e: Engine, leaf: Leaf, a: seq<Id>, b: seq<Id>, k: nat)
    requires Distinct(a) && multiset(a) == multiset(b)
    ensures ExecLeaf(e, leaf, a, k) == ExecLeaf(e, leaf, b, k)
  {
    CandidatesSeparated(e, leaf, a);
    CandidatesPermute(e, leaf, a, b);
    SortPermuted(Before(leaf.scoreDesc), Candidates(e, leaf, a), Candidates(e, leaf, b));
  }

  /** The order in which an index holds its points does not matter. */
  lemma {:induction false} RunPermuted(e: Engine, a: seq<Id>, b: seq<Id>, spec: Spec, depth: nat)
    requires Distinct(a) && multiset(a) == multiset(b)
    ensures Run(e, a, spec, depth) == Run(e, b, spec, depth)
    decreases spec, |spec.prefetch| + 1
  {
    SourceLanesPermuted(e, a, b, spec, 0, depth);
  }

  lemma {:induction false} SourceLanesPermuted(e: Engine, a: seq<Id>, b: seq<Id>, spec: Spec, i: nat, depth: nat)
    requires Distinct(a) && multiset(a) == multiset(b)
    requires i <= |spec.prefetch|
    ensures SourceLanes(e, a, spec, i, depth) == SourceLanes(e, b, spec, i, depth)
    decreases spec, |spec.prefetch| - i
  {
    if i < |spec.prefetch| {
      SourceLanesPermuted(e, a, b, spec, i + 1, depth);
      match spec.prefetch[i]
      case LeafSource(leaf) => ExecLeafPermuted(e, leaf, a, b, EffectiveK(spec));
      case SpecSource(sub) => RunPermuted(e, a, b, sub, depth + 1);
      case NoSource =>
    }
  }

  // ---------- sources that can be computed one partition at a time ----------

  /** A leaf, or single-lane fusions around one. */
  predicate Passes(src: Source)
    decreases src
  {
    match src
    case LeafSource(_) => true
    case SpecSource(sub) => sub.mode == Fusion && |sub.prefetch| == 1 && Passes(sub.prefetch[0])
    case NoSource => false
  }

  function InnerLeaf(src: Source): (leaf: Leaf)
    requires Passes(src)
    ensures SourceOrientation(src) == leaf.scoreDesc
    decreases src
  {
    match src
    case LeafSource(leaf) => leaf
    case SpecSource(sub) => InnerLeaf(sub.prefetch[0])
  }

  /** How many entries of the inner leaf's ranking such a source keeps. */
  function Kept(src: Source, k: nat): (n: nat)
    requires Passes(src)
    ensures 0 < n <= SourcePool(src, k)
    decreases src
  {
    match src
    case LeafSource(leaf) => LeafPool(leaf, k)
    case SpecSource(sub) => AtMost(Kept(sub.prefetch[0], EffectiveK(sub)), EffectiveK(sub))
  }

  lemma TakeTake<T>(s: seq<T>, m: nat, n: nat)
    ensures Take(Take(s, m), n) == Take(s, AtMost(m, n))
  {}

  lemma {:induction false} PassingLane(e: Engine, data: seq<Id>, src: Source, k: nat, depth: nat)
    requires Passes(src) && AcceptedSource(src, depth)
    ensures SourceLane(e, data, src, k, depth) ==
            Ok(Best(Before(SourceOrientation(src)), Candidates(e, InnerLeaf(src), data), Kept(src, k)))
    decreases src
  {
    if src.SpecSource? {
      var sub := src.spec;
      RunAccepts(e, data, sub, depth + 1);
      PassingLane(e, data, sub.prefetch[0], EffectiveK(sub), depth + 1);
      var inner := SourceLane(e, data, sub.prefetch[0], EffectiveK(sub), depth + 1).value;
      assert [inner] + [] == [inner];
      assert SourceLanes(e, data, sub, 1, depth + 1) == Ok([]);
      assert SourceLanes(e, data, sub, 0, depth + 1) == Ok([inner]);
      TakeTake(Sort(Before(SourceOrientation(src)), Candidates(e, InnerLeaf(src), data)), Kept(sub.prefetch[0], EffectiveK(sub)), EffectiveK(sub));
    }
  }

  function CandidatesOfEach(e: Engine, leaf: Leaf, data: seq<seq<Id>>): (r: seq<Lane>)
    ensures |r| == |data|
  {
    seq(|data|, p requires 0 <= p < |data| => Candidates(e, leaf, data[p]))
  }

  lemma {:induction false} CandidatesFlatten(e: Engine, leaf: Leaf, data: seq<seq<Id>>)
    ensures Flatten(CandidatesOfEach(e, leaf, data)) == Candidates(e, leaf, Flatten(data))
  {
    if data != [] {
      var each := CandidatesOfEach(e, leaf, data);
      assert each[1..] == CandidatesOfEach(e, leaf, data[1..]);
      CandidatesFlatten(e, leaf, data[1..]);
      CandidatesConcat(e, leaf, data[0], Flatten(data[1..]));
    }
  }

  /** The lanes `data`'s partitions produce for one source. */
  ghost predicate LanesOf(e: Engine, data: seq<seq<Id>>, src: Source, k: nat, depth: nat, lanes: seq<Lane>)
  {
    && |lanes| == |data|
    && forall p :: 0 <= p < |data| ==> SourceLane(e, data[p], src, k, depth) == Ok(lanes[p])
  }

  /** What the coordinator makes of the lanes of one source: their union, cut to the
      source's pool. */
  function UnionLane(src: Source, k: nat, lanes: seq<Lane>): (r: Lane)
  {
    Best(Before(SourceOrientation(src)), Flatten(lanes), SourcePool(src, k))
  }

  lemma PassingUnion(e: Engine, data: seq<seq<Id>>, src: Source, k: nat, depth: nat, lanes: seq<Lane>)
    requires Passes(src) && AcceptedSource(src, depth)
    requires LanesOf(e, data, src, k, depth, lanes)
    ensures lanes == BestOfEach(Before(SourceOrientation(src)), CandidatesOfEach(e, InnerLeaf(src), data), Kept(src, k))
  {
    forall p | 0 <= p < |data| ensures lanes[p] == Best(Before(SourceOrientation(src)), Candidates(e, InnerLeaf(src), data[p]), Kept(src, k)) {
      PassingLane(e, data[p], src, k, depth);
    }
  }

  /** A source that keeps its whole pool is computed exactly from its partitions. */
  lemma UnionExact(e: Engine, data: seq<seq<Id>>, src: Source, k: nat, depth: nat, lanes: seq<Lane>)
    requires Passes(src) && AcceptedSource(src, depth)
    requires LanesOf(e, data, src, k, depth, lanes)
    requires Kept(src, k) == SourcePool(src, k)
    ensures SourceLane(e, Flatten(data), src, k, depth) == Ok(UnionLane(src, k, lanes))
  {
    PassingUnion(e, data, src, k, depth, lanes);
    PassingLane(e, Flatten(data), src, k, depth);
    CandidatesFlatten(e, InnerLeaf(src), data);
    BestOfBests(Before(SourceOrientation(src)), CandidatesOfEach(e, InnerLeaf(src), data), Kept(src, k), Kept(src, k));
  }

  // ---------- and only those ----------

  function Upto(n: nat): (ids: seq<Id>)
  {
    seq(n, i => i)
  }

  /** An engine that matches every point with the same key. */
  function Flat(): (e: Engine)
  {
    Engine((leaf, id) => Some((0.0, 0.0)), (a, b, blend, k) => a, (a, b, blend, k) => a, (root, lanes, k) => [])
  }

  lemma {:induction false} FlatMatchesAll(leaf: Leaf, data: seq<Id>)
    ensures |Candidates(Flat(), leaf, data)| == |data|
  {
    if data != [] { FlatMatchesAll(leaf, data[1..]); }
  }

  /** `n` points on one partition and one on the other, for a source that keeps `n`
      while the coordinator keeps more: the union has `n + 1` entries. */
  lemma PassingDiverges(src: Source, k: nat, depth: nat) returns (data: seq<seq<Id>>, lanes: seq<Lane>)
    requires Passes(src) && AcceptedSource(src, depth)
    requires Kept(src, k) < SourcePool(src, k)
    ensures Distinct(Flatten(data)) && LanesOf(Flat(), data, src, k, depth, lanes)
    ensures SourceLane(Flat(), Flatten(data), src, k, depth) != Ok(UnionLane(src, k, lanes))
  {
    hide SourceLane, Passes, Kept, AcceptedSource, Flatten, Best, Flat;
    var n := Kept(src, k);
    data := [Upto(n), [n]];
    FlattenTwo(Upto(n), [n]);
    FlatLane(data[0], src, k, depth);
    FlatLane(data[1], src, k, depth);
    FlatLane(Flatten(data), src, k, depth);
    var left := SourceLane(Flat(), data[0], src, k, depth).value;
    var right := SourceLane(Flat(), data[1], src, k, depth).value;
    lanes := [left, right];
    FlattenTwo(left, right);
    UnionLength(src, k, lanes);
  }

  lemma FlattenTwo<T>(a: seq<T>, b: seq<T>)
    ensures Flatten([a, b]) == a + b
  {
    assert [a, b][1..] == [b] && [b][1..] == [];
    assert Flatten([b]) == b + Flatten([]);
  }

  lemma FlatLane(data: seq<Id>, src: Source, k: nat, depth: nat)
    requires Passes(src) && AcceptedSource(src, depth)
    ensures SourceLane(Flat(), data, src, k, depth).Ok?
    ensures |SourceLane(Flat(), data, src, k, depth).value| == AtMost(|data|, Kept(src, k))
  {
    PassingLane(Flat(), data, src, k, depth);
    FlatMatchesAll(InnerLeaf(src), data);
  }

  lemma UnionLength(src: Source, k: nat, lanes: seq<Lane>)
    ensures |UnionLane(src, k, lanes)| == AtMost(|Flatten(lanes)|, SourcePool(src, k))
  {}

  /** A source shipped as one lane is exact on every partitioning if and only if it
      keeps as many entries as the coordinator cuts to: a nested single-lane fusion
      whose leaf asks for fewer entries than the fusion's own limit is not. */
  lemma PassingExactIff(src: Source, k: nat, depth: nat)
    requires Passes(src) && AcceptedSource(src, depth)
    ensures Kept(src, k) == SourcePool(src, k) <==>
            forall e, data, lanes | Distinct(Flatten(data)) && LanesOf(e, data, src, k, depth, lanes) ::
              SourceLane(e, Flatten(data), src, k, depth) == Ok(UnionLane(src, k, lanes))
  {
    if Kept(src, k) == SourcePool(src, k) {
      forall e, data, lanes | Distinct(Flatten(data)) && LanesOf(e, data, src, k, depth, lanes)
        ensures SourceLane(e, Flatten(data), src, k, depth) == Ok(UnionLane(src, k, lanes))
      {
        UnionExact(e, data, src, k, depth, lanes);
      }
    } else {
      var data, lanes := PassingDiverges(src, k, depth);
    }
  }

  // ---------- what a fold computes ----------

  /** `acc` are the running results of folding two or more lanes: the first two are
      fused as a distance lane and a score lane if the first compares by distance, as two
      score lanes otherwise; each later lane, in order, is fused into the result so far
      by score. */
  ghost predicate Running(e: Engine, lanes: seq<Lane>, byDistance: bool, blend: Blend, k: nat, acc: seq<Lane>)
  {
    && |lanes| >= 2 && |acc| == |lanes| - 1
    && acc[0] == (if byDistance then e.fuse(lanes[0], lanes[1], blend, k) else e.fuseScores(lanes[0], lanes[1], blend, k))
    && forall i :: 1 <= i < |acc| ==> acc[i] == e.fuseScores(acc[i - 1], lanes[i + 1], blend, k)
  }

  /** `r` is the fusion of the lanes: of one lane its first `k` hits. */
  ghost predicate Fused(e: Engine, lanes: seq<Lane>, byDistance: bool, blend: Blend, k: nat, r: Lane)
  {
    if |lanes| == 1 then r <= lanes[0] && |r| == (if |lanes[0]| < k then |lanes[0]| else k)
    else exists acc :: Running(e, lanes, byDistance, blend, k, acc) && r == acc[|acc| - 1]
  }

  lemma {:induction false} FoldRuns(e: Engine, lanes: seq<Lane>, byDistance: bool, blend: Blend, k: nat, n: nat) returns (acc: seq<Lane>)
    requires 2 <= n <= |lanes|
    ensures Running(e, lanes[..n], byDistance, blend, k, acc)
    ensures acc[|acc| - 1] == FuseUpTo(e, lanes, !byDistance, blend, k, n)
  {
    if n == 2 {
      acc := [FuseUpTo(e, lanes, !byDistance, blend, k, 2)];
    } else {
      var front := FoldRuns(e, lanes, byDistance, blend, k, n - 1);
      acc := front + [FuseUpTo(e, lanes, !byDistance, blend, k, n)];
      assert lanes[..n][..n - 1] == lanes[..n - 1];
    }
  }

  lemma FuseMeans(e: Engine, lanes: seq<Lane>, byDistance: bool, blend: Blend, k: nat)
    requires |lanes| >= 1 && k > 0
    ensures Fused(e, lanes, byDistance, blend, k, FuseLanes(e, lanes, !byDistance, blend, k))
  {
    if |lanes| > 1 {
      var acc := FoldRuns(e, lanes, byDistance, blend, k, |lanes|);
      assert lanes[..|lanes|] == lanes;
    }
  }
}
