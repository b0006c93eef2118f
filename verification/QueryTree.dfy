/** Query specification trees and what one index does with them: run the whole tree
    (`runQuerySpecAt`), or ship the lanes of its fusion nodes unfused, in pre-order
    (`collectTreeLanesAt`). */
module QueryTree {
  import opened Store
  import opened Ranking

  const MAX_QUERY_DEPTH := 4
  const MAX_PREFETCH_SOURCES := 64
  const MAX_LANE_POOL := 10000

  datatype Hit = Hit(id: Id, distance: real, score: real)
  type Lane = seq<Hit>

  datatype Error = TooDeep | TooManySources | NoPrefetch | BadLeafKind | NoRoot | BadQueryMode
  datatype Result<T> = Ok(value: T) | Err(error: Error)

  /** `kindOk` and `rootOk` are the outcomes of the leaf validations. */
  datatype Leaf = Leaf(tag: nat, scoreDesc: bool, laneK: int, k: int, kindOk: bool, rootOk: bool)
  datatype Blend = Blend(formula: nat, alpha: real, rrfK: int)
  datatype Mode = Fusion | Rerank | OtherMode
  datatype Source = LeafSource(leaf: Leaf) | SpecSource(spec: Spec) | NoSource
  datatype Spec = Spec(mode: Mode, prefetch: seq<Source>, root: Leaf, blend: Blend, k: int)
  datatype QueryResult = QueryResult(lanes: seq<Lane>, fused: Lane)

  /** The parts of the engine a query depends on: how a leaf scores one point (the
      same on whichever partition holds it), the fusion arithmetic, and the
      re-scoring of candidate lanes by a rerank root. */
  datatype Engine = Engine(
    eval: (Leaf, Id) -> Option<(real, real)>,
    fuse: (Lane, Lane, Blend, int) -> Lane,
    fuseScores: (Lane, Lane, Blend, int) -> Lane,
    rerank: (Leaf, seq<Lane>, int) -> Lane)

  // ---------- orders, pools and orientations ----------

  function Before(scoreDesc: bool): (less: (Hit, Hit) -> bool)
    ensures WeakOrder(less)
  {
    if scoreDesc then
      (a: Hit, b: Hit) => a.score > b.score || (a.score == b.score && a.id < b.id)
    else
      (a: Hit, b: Hit) => a.distance < b.distance || (a.distance == b.distance && a.id < b.id)
  }

  function EffectiveK(spec: Spec): (k: nat)
    ensures k > 0
  {
    if spec.k > 0 then spec.k else 10
  }

  function AtMost(x: nat, cap: nat): (r: nat) { if x <= cap then x else cap }

  function LeafPool(leaf: Leaf, k: nat): (n: nat)
    ensures 0 < n <= MAX_LANE_POOL
  {
    AtMost(if leaf.laneK > 0 then leaf.laneK else if leaf.k > 0 then leaf.k else if k < 50 then 50 else k, MAX_LANE_POOL)
  }

  function SourcePool(src: Source, k: nat): (n: nat)
    ensures 0 < n <= MAX_LANE_POOL
  {
    match src
    case LeafSource(leaf) => LeafPool(leaf, k)
    case SpecSource(sub) => AtMost(EffectiveK(sub), MAX_LANE_POOL)
    case NoSource => if k < 50 then 50 else AtMost(k, MAX_LANE_POOL)
  }

  predicate SourceOrientation(src: Source)
    decreases src
  {
    match src
    case LeafSource(leaf) => leaf.scoreDesc
    case SpecSource(sub) =>
      if sub.mode == Rerank then sub.root.scoreDesc
      else if |sub.prefetch| == 1 then SourceOrientation(sub.prefetch[0])
      else true
    case NoSource => false
  }

  /** A nested source whose own lanes are shipped rather than its fused result. */
  predicate Expanded(src: Source)
  {
    src.SpecSource? && src.spec.mode == Fusion && |src.spec.prefetch| >= 2
  }

  predicate HasNestedFusion(spec: Spec)
  {
    exists i :: 0 <= i < |spec.prefetch| && spec.prefetch[i].SpecSource? &&
      (Expanded(spec.prefetch[i]) || HasNestedFusion(spec.prefetch[i].spec))
  }

  // ---------- one index ----------

  function Candidates(e: Engine, leaf: Leaf, data: seq<Id>): (r: Lane)
    ensures forall h | h in r :: h.id in data
  {
    if data == [] then []
    else match e.eval(leaf, data[0])
      case None => Candidates(e, leaf, data[1..])
      case Some(key) => [Hit(data[0], key.0, key.1)] + Candidates(e, leaf, data[1..])
  }

  /** A leaf's lane: its exact best entries. */
  function ExecLeaf(e: Engine, leaf: Leaf, data: seq<Id>, k: nat): (r: Lane)
  {
    Best(Before(leaf.scoreDesc), Candidates(e, leaf, data), LeafPool(leaf, k))
  }

  function FuseUpTo(e: Engine, lanes: seq<Lane>, scoreDesc: bool, blend: Blend, k: int, n: nat): (r: Lane)
    requires 2 <= n <= |lanes|
  {
    if n > 2 then e.fuseScores(FuseUpTo(e, lanes, scoreDesc, blend, k, n - 1), lanes[n - 1], blend, k)
    else if scoreDesc then e.fuseScores(lanes[0], lanes[1], blend, k)
    else e.fuse(lanes[0], lanes[1], blend, k)
  }

  function FuseLanes(e: Engine, lanes: seq<Lane>, scoreDesc: bool, blend: Blend, k: int): (r: Lane)
  {
    if |lanes| == 0 then []
    else if |lanes| == 1 then (if k > 0 then Take(lanes[0], k) else lanes[0])
    else FuseUpTo(e, lanes, scoreDesc, blend, k, |lanes|)
  }

  predicate SourceOk(src: Source)
  {
    match src
    case LeafSource(leaf) => leaf.kindOk
    case SpecSource(_) => true
    case NoSource => false
  }

  /** The lane of one prefetch source. */
  function SourceLane(e: Engine, data: seq<Id>, src: Source, k: nat, depth: nat): (r: Result<Lane>)
    decreases src
  {
    match src
    case LeafSource(leaf) => Ok(ExecLeaf(e, leaf, data, k))
    case SpecSource(sub) =>
      (match Run(e, data, sub, depth + 1)
       case Ok(q) => Ok(q.fused)
       case Err(x) => Err(x))
    case NoSource => Err(BadLeafKind)
  }

  /** The lanes of sources `i..`, stopping at the first error. */
  function SourceLanes(e: Engine, data: seq<Id>, spec: Spec, i: nat, depth: nat): (r: Result<seq<Lane>>)
    requires i <= |spec.prefetch|
    decreases spec, 0, |spec.prefetch| - i
  {
    if i == |spec.prefetch| then Ok([])
    else match SourceLane(e, data, spec.prefetch[i], EffectiveK(spec), depth)
      case Err(x) => Err(x)
      case Ok(lane) =>
        match SourceLanes(e, data, spec, i + 1, depth)
        case Err(x) => Err(x)
        case Ok(rest) => Ok([lane] + rest)
  }

  /** `runQuerySpecAt`. */
  function Run(e: Engine, data: seq<Id>, spec: Spec, depth: nat): (r: Result<QueryResult>)
    decreases spec, 1
  {
    if depth > MAX_QUERY_DEPTH then Err(TooDeep)
    else if |spec.prefetch| > MAX_PREFETCH_SOURCES then Err(TooManySources)
    else if |spec.prefetch| == 0 then Err(NoPrefetch)
    else if exists src | src in spec.prefetch :: !SourceOk(src) then Err(BadLeafKind)
    else match SourceLanes(e, data, spec, 0, depth)
      case Err(x) => Err(x)
      case Ok(lanes) =>
        match spec.mode
        case Fusion => Ok(QueryResult(lanes, FuseLanes(e, lanes, SourceOrientation(spec.prefetch[0]), spec.blend, EffectiveK(spec))))
        case Rerank =>
          if !spec.root.kindOk then Err(BadLeafKind)
          else if !spec.root.rootOk then Err(NoRoot)
          else Ok(QueryResult([], e.rerank(spec.root, lanes, EffectiveK(spec))))
        case OtherMode => Err(BadQueryMode)
  }

  /** What one index answers. */
  function Answer(e: Engine, data: seq<Id>, spec: Spec, depth: nat): (r: Result<Lane>)
  {
    match Run(e, data, spec, depth)
    case Ok(q) => Ok(q.fused)
    case Err(x) => Err(x)
  }

  /** The lanes shipped for sources `i..`. */
  function CollectFrom(e: Engine, data: seq<Id>, spec: Spec, i: nat, depth: nat): (r: Result<seq<Lane>>)
    requires i <= |spec.prefetch|
    decreases spec, 0, |spec.prefetch| - i
  {
    if i == |spec.prefetch| then Ok([])
    else
      var src := spec.prefetch[i];
      var first: Result<seq<Lane>> :=
        if Expanded(src) then Collect(e, data, src.spec, depth + 1)
        else if !SourceOk(src) then Err(BadLeafKind)
        else match SourceLane(e, data, src, EffectiveK(spec), depth)
          case Ok(lane) => Ok([lane])
          case Err(x) => Err(x);
      if first.Err? then first
      else match CollectFrom(e, data, spec, i + 1, depth)
        case Err(x) => Err(x)
        case Ok(rest) => Ok(first.value + rest)
  }

  /** `collectTreeLanesAt`. */
  function Collect(e: Engine, data: seq<Id>, spec: Spec, depth: nat): (r: Result<seq<Lane>>)
    decreases spec, 1
  {
    if depth > MAX_QUERY_DEPTH then Err(TooDeep)
    else if |spec.prefetch| > MAX_PREFETCH_SOURCES then Err(TooManySources)
    else if |spec.prefetch| == 0 then Err(NoPrefetch)
    else if spec.mode == Rerank then
      (match Run(e, data, spec, depth)
       case Ok(q) => Ok([q.fused])
       case Err(x) => Err(x))
    else if spec.mode != Fusion then Err(BadQueryMode)
    else CollectFrom(e, data, spec, 0, depth)
  }
}
