# Verified model of the partitioned vector store's coordinator

This project models the coordinator layer of a partitioned vector store and proves
that its protocols and merges do what they are for. It covers

- the **online reshard** of a live collection from one generation of partitions to
  the next, with clients writing, nodes lagging and the coordinator crashing;
- the **offline resplit** and the **orphan sweep**;
- **distributed query merges**: fusion trees, flat fusion, rerank, two-lane hybrid,
  group search;
- **cursor pagination** across partitions that change between pages;
- the **direct store's** operation locks and its close fence;
- **batch get**, **collection aliases** (catalog and byte codec) and the **cache
  geometry**.

`dafny verify dfyconfig.toml` checks everything.

## How it is laid out

| modules | contents |
|---|---|
| `Store` | ids, records, physical partitions, routing |
| `ReshardMachine` | the reshard protocol as a step machine: clients, nodes, one coordinator |
| `ReshardInvariant`, `ReshardClients`, `ReshardCoordinator` | the inductive invariant, and every step keeping it |
| `ReshardTheorems`, `ReshardRecovery` | what follows for every run; recovery |
| `ReshardHaste`, `ReshardResume`, `ReshardFresh` | what it costs that finalize, clean-up, resume and a fresh begin wait for nobody, exactly |
| `ReshardClean` | what every run guarantees an id that no step harms |
| `ReshardAnomalies` | six runs in which the protocol loses a write or brings a deleted point back |
| `ReshardProgram` | the coordinator's operations as loops of calls, with interference and faults before every call |
| `ResplitSpec`, `SweepSpec`, `Resplit` | the offline copy and the orphan sweep |
| `Ranking` | stable sorting and truncation under any strict weak order |
| `QueryTree`, `QueryLemmas`, `QueryMerge`, `QueryFanOut`, `QueryExact`, `HybridGroups` | query trees on one index, and the merges over partitions |
| `QueryMeaning` | what an answer is, said without the functions that compute it |
| `Scroll` | pagination |
| `DirectLocks`, `DirectLockProofs`, `DirectBatch`, `DrainFence` | the direct store |
| `BatchGet`, `AliasCatalog`, `AliasProgram`, `AliasCodec`, `CacheGeometry` | the smaller cores |

## What is assumed

- The engine is a contract: what a scan, an insert, a delete, a bulk build, a create
  and a drop do to one physical partition. A leaf of a query scores a point the same
  way on whichever partition holds it, and returns its exact best entries. The fusion
  arithmetic, the rerank scorer and the grouping of candidates are function
  parameters: any deterministic functions.
- `PartitionOf` reduces an arbitrary hash modulo the partition count, and partition
  names are injective, so a name is the pair of its generation and index.
- Scores, distances and order-by keys are totally ordered (no NaN), integers are
  unbounded except where a width is written out.
- In the reshard machine, writes to one id are serial and writes to different ids
  interleave; writes are upserts and deletes; there is one coordinator operation at a
  time and it reads the durable catalog; a write whose leg failed stays in flight
  until it is retried, or is given up if nothing has landed; records do not expire.
- Alias batches, lookups, creates, drops and reshards are serial: each is one event of
  the alias model. In the code the checks of a batch and its write are not under one
  lock, so a drop in between leaves a dangling alias.
- Two waits of the protocol are a sleep and a timeout in the code and conditions here.
  After dual writes are first turned on, the copy starts when every node has applied
  the reshard state and every write in flight addresses both generations (the drain
  grace). After the flip, the state is cleared when every node has applied the flip
  (the cutover gate). Nothing else waits: a finalize, a clean-up, a resume and a fresh
  begin after an abort go ahead at once, as in the code.

## Where the code falls short of its promise

Each of these is a run or an input in the model; the code is modelled as it is, and
what it does guarantee is stated as an if-and-only-if.

1. *A copied point can disagree with the old generation.* The machine marks an id at
   the step that harms it: a write that missed the new generation completed over what
   it holds (`DeleteThroughLaggingNodeIsLost`); the coordinator died between the copy
   of a deleted id and its guard (`DeletedPointReturns`); the guard deleted an id that
   was back (`ReinsertedPointIsLost`). The generations agree on an idle id, the second
   pass leaves it the same in both, and a served node reads its last acknowledged
   write, each if and only if the id is not marked (`Agreement`, `Completeness`,
   `Visibility`). `HarmCause` and `WrongCause` list every step that can mark an id, and
   an id that no step of a run harms reads right in all of it (`CleanReads`).
2. *A finalize or clean-up strands nodes that lag behind the flip*
   (`FinalizeStrandsLaggingNode`). A served node stops being served for an id if and
   only if one of the two goes ahead before the node has applied the flip
   (`ServedLostIff`), so in a run whose finalizes and clean-ups wait, every node is
   always served (`PatientServes`).
3. *A resume loses points written through nodes that lag behind Phase 1*
   (`ResumeLosesNewPoint`). No run of a resume has a write that misses the new
   generation if and only if, when it begins, every write in flight that can still land
   and every entry a node may still route by addresses it (`ResumeSafeIff`). Once the
   grace has passed, and until the catalog changes (`GraceLasts`), a right copy is
   harmed if and only if the coordinator dies on it or the guard races
   (`DrainedHarmIff`).
4. *A fresh reshard after an abort takes in writes meant for the aborted one*
   (`OldWriteGoesAstray`). No run of it does if and only if, when it begins, nothing in
   flight and no entry a node may still route by addresses a partition it is about to
   create (`FreshSafeIff`); then the new generation starts empty (`ClearStartsEmpty`).
5. *A batch put on a direct store is not atomic across shards.* It locks the shard of
   its first key and writes all its keys. Every run of it with increments is as good as
   a serial order if and only if all its keys share the first key's shard
   (`PutBatchSafeIff`); a caller can check that, and the clustered store groups by it.
6. *Nested single-lane fusion is not always partition-invariant.* It is exact on every
   partitioning if and only if its leaf asks for at least as many entries as the
   coordinator keeps (`PassingExactIff`), and a tree of leaves and fusions if and only
   if all its lanes are, up to the limit of a root with one lane (`TreeExactIff`). The
   code's comments claim it always is.
7. *A rerank over a nested multi-lane fusion answers nothing.* The partitions ship
   tree lanes, the coordinator reads reranked results, so the answer is empty whatever
   is stored; a rerank returns the top of its partitions' results, on every engine and
   all data, if and only if its tree has no nested multi-lane fusion
   (`RerankExactIff`).
8. *A failed first load loses the aliases.* The load runs once; if its read fails the
   cache is empty and the next write stores it over the durable map
   (`LostByFailedLoad`). The cache equals the durable map after a load if and only if
   the read succeeded or there was nothing to read (`EnsureLoaded`). A create takes the
   name of a stored alias if and only if that load failed and nothing else forbids the
   name (`CreateShadowsIff`).
9. *Aliases can dangle.* Reserved characters are refused in an alias and not in its
   target, and the existence probe succeeds on a physical partition, so an alias of
   `docs#0` is accepted, and left behind by a drop whose cascade is durable and by a
   reshard (`PhysicalTargetDangles`). A drop sets the catalog entry of a partitioned
   collection to one partition, which a single node still counts as an entry: an alias
   of the dropped collection is accepted and leads nowhere, and its name cannot be
   created again (`DroppedNameLivesOn`). With loads that succeed, over any sequence of
   operations, every alias leads to a collection and shadows none all along if and only
   if every cascade is durable or has nothing to remove, no drop fails between the
   collection and its entry while aliases lead to it, and the last word of every accepted batch on an alias leads
   neither to a physical partition nor to a name whose entry outlived its collection
   (`AlwaysSafeIff`).

## Model

| member | source | states |
|---|---|---|
| `Store.PartitionOf` | embedded.go:2118-2124 | an id has one partition, below the count |
| `ReshardClients.TargetsOfEntry` | embedded.go:2164-2200 | whatever catalog entry a lagging node may hold, the write goes to that entry's own partition first and, while resharding, to the other generation's partition second |
| `ReshardClients.TargetsWithoutPin` | embedded.go:2171-2181 | without the old generation's pin the second leg goes to the new generation until the catalog routes there |
| `ReshardTheorems.FirstLegIff` | embedded.go:2273-2319 | the first leg can be taken exactly if its partition is there, lands there, and completes a write with one target |
| `ReshardTheorems.SecondLegIff` | embedded.go:2263-2319 | the second leg can be taken exactly if its partition is there or is of the retiring generation, and completes the write |
| `ReshardClients.AttemptKeeps` | embedded.go:2164-2200 | starting or retrying a write through any node's view keeps the invariant |
| `ReshardInvariant.LiveLocalKeeps` | embedded.go:2273-2319 | the live leg of a write keeps everything known of its id |
| `ReshardInvariant.TargetLocalKeeps` | embedded.go:2263-2319 | so does the second leg, including on a retired partition that is gone |
| `ReshardClients.LiveKeeps` | embedded.go:2273-2319 | a live leg keeps the invariant of the whole collection |
| `ReshardClients.TargetKeeps` | embedded.go:2263-2319 | a target leg keeps it, a missing retiring partition tolerated |
| `ReshardClients.RetireKeeps` | embedded.go:2273-2319 | acknowledging or giving up a write keeps it |
| `ReshardClients.NodeKeeps` | embedded.go:3513-3532 | a node applying the next catalog entry keeps it |
| `ReshardInvariant.InsertLocalKeeps` | embedded.go:3756-3766 | insert-if-absent never clobbers a newer value |
| `ReshardInvariant.CheckLocalKeeps` | embedded.go:3767-3776 | the re-check finds every id deleted since its scan |
| `ReshardInvariant.GuardLocalKeeps` | embedded.go:3777-3781 | the guard removes a resurrected id |
| `ReshardInvariant.FlipLocalKeeps` | embedded.go:3682-3689 | after the flip an id reads wrong exactly if its copy was harmed and differs from the last write |
| `ReshardCoordinator.VictimKeeps` | embedded.go:3634-3643 | every drop, of leftovers, of a retired or aborted generation or by a sweep, keeps the invariant |
| `ReshardCoordinator.CreateNewKeeps` | embedded.go:3644-3657 | creating its partitions, fresh or on resume, keeps it |
| `ReshardCoordinator.SetStateKeeps` | embedded.go:3659-3671 | turning on dual writes keeps it, whatever late writes have left in the new generation |
| `ReshardCoordinator.GraceKeeps` | embedded.go:3659-3671 | so does the end of the drain grace |
| `ReshardCoordinator.ScanKeeps` | embedded.go:3738-3750 | scanning a source partition keeps it, waited for or not |
| `ReshardCoordinator.CopyKeeps` | embedded.go:3750-3788 | every step of copying one record keeps it |
| `ReshardCoordinator.FlipKeeps` | embedded.go:3681-3689 | the catalog flip keeps it |
| `ReshardCoordinator.ClearKeeps` | embedded.go:3698-3708 | clearing the state keeps it, at the gate or by a finalize that waits for nobody |
| `ReshardCoordinator.TailKeeps` | embedded.go:4149-4187 | so does every other step of a sweep, of the old generation's drop and of an abort |
| `ReshardCoordinator.CrashKeeps` | embedded.go:3582-3720 | a crash, or a failing call, at any point keeps it |
| `ReshardCoordinator.CoordKeeps` | embedded.go:3582-3889 | every step of reshard, resume, finalize, abort and cleanup keeps it |
| `ReshardTheorems.StepKeeps` | embedded.go:2164-2319 | every step of every actor keeps it |
| `ReshardTheorems.RunInv` | embedded.go:3582-3720 | it holds throughout every run |
| `ReshardTheorems.Agreement` | embedded.go:3738-3789 | before the cutover, in every interleaving, whatever the new generation holds for an idle id is the old generation's current value if and only if the id is not marked dirty |
| `ReshardTheorems.Completeness` | embedded.go:3673-3689 | after the second pass an idle id is in the same state in both generations if and only if it is neither dirty nor lost, whatever happened in the first |
| `ReshardTheorems.Visibility` | embedded.go:2164-2200 | in every reachable state a served node, routing by its own view, finds the partition, and reads the last acknowledged write of an idle id if and only if the id is not marked wrong there |
| `ReshardTheorems.DropSafety` | embedded.go:4149-4166 | no step of any operation removes a partition the catalog routes to; only a sweep removes one a node routes to, and only under a node that has not applied the flip |
| `ReshardTheorems.Transparency` | embedded.go:3862-3889 | a coordinator step, abort and clean-up included, changes what a node reads for an id if and only if it drops the very partition the node routes it to, with the point in it |
| `ReshardTheorems.FreshStart` | embedded.go:3634-3657 | a fresh reshard turns on dual writes only over an existing new generation, whatever orphans it found; nothing is in it but what late writes have left |
| `ReshardRecovery.CoordDescends` | embedded.go:3582-3720 | every coordinator step brings the operation nearer its end |
| `ReshardRecovery.OthersKeepRank` | embedded.go:3582-3720 | no step of a client or a node sets it back |
| `ReshardRecovery.NeverStuck` | embedded.go:3582-3720 | once nodes have caught up and writes are re-resolved, the next step is always possible |
| `ReshardRecovery.CoordToward` | embedded.go:3582-3720 | a reshard keeps its target through finalize, resume and cleanup |
| `ReshardRecovery.EveryRunEndsStable` | embedded.go:3582-3720 | whatever clients and nodes do meanwhile, every uninterrupted reshard that has come to its end has left the collection stable with the requested partition count |
| `ReshardRecovery.EveryRunDescends` | embedded.go:3582-3720 | and it comes to its end: along every such run the rank never rises and falls with every step of the coordinator |
| `ReshardRecovery.OldGone` | embedded.go:3710-3718 | every uninterrupted reshard that has moved the catalog to another generation and come to its end has removed every partition of the one it found |
| `ReshardRecovery.NewGone` | embedded.go:3876-3889 | every uninterrupted abort that has come to its end has left the catalog stable where it was and removed every partition of the generation being built |
| `ReshardRecovery.WrongCause` | embedded.go:2273-2319 | an id is newly marked wrong only by the flip of a harmed copy or by the last leg of a write that missed the routed partition |
| `ReshardRecovery.Finish` | embedded.go:3582-3720 | from any point of a reshard there is a continuation that completes it |
| `ReshardRecovery.Recovery` | embedded.go:3582-3852 | from whatever a crash left behind, with any writes in flight, there is a run of the reshard that ends stable with the requested partition count |
| `ReshardRecovery.NotStuckResharding` | embedded.go:3586-3617 | in every reachable resharding state the target being built is accepted again |
| `ReshardAnomalies.DeletedPointReturns` | embedded.go:3764-3781 | a run in which a crash between copy and guard brings a deleted point back |
| `ReshardAnomalies.DeleteThroughLaggingNodeIsLost` | embedded.go:3659-3671 | a run in which a delete through a node that lags behind Phase 1 is undone by the flip |
| `ReshardAnomalies.ReinsertedPointIsLost` | embedded.go:3777-3781 | a run in which the guard deletes a point re-inserted during the second pass |
| `ReshardAnomalies.FinalizeStrandsLaggingNode` | embedded.go:3828-3852 | a run in which a finalize drops the partition a node that lags behind the flip routes to |
| `ReshardAnomalies.ResumeLosesNewPoint` | embedded.go:3659-3671 | a run in which a resume skips the grace and a point written through a lagging node is gone at the flip |
| `ReshardAnomalies.OldWriteGoesAstray` | embedded.go:3634-3657 | a run in which a write to an aborted generation lands in the next one of that number, and its point is found after it was deleted |
| `ReshardHaste.ServedLostIff` | embedded.go:3828-3852 | a served node stops being served for an id if and only if a finalize or clean-up goes ahead before the node has applied the flip |
| `ReshardHaste.PatientServes` | embedded.go:4149-4166 | in every run whose finalizes and clean-ups wait for that, every node is served for every id, always |
| `ReshardHaste.HarmCause` | embedded.go:3738-3789 | a copy is harmed only by a write that missed the new generation, a late write when dual writes come on, a crash on the copy, or the guard race |
| `ReshardHaste.GraceLasts` | embedded.go:3659-3671 | once the grace has passed, every node and every write in flight stays on both generations until the catalog changes |
| `ReshardHaste.FirstScanDrained` | embedded.go:3659-3671 | a fresh reshard's first scan begins in such a state |
| `ReshardHaste.DrainedHarmIff` | embedded.go:3659-3671 | while that is so a right copy is harmed if and only if the coordinator dies on it or the guard races |
| `ReshardResume.ResumeSafeIff` | embedded.go:3659-3671 | no run of a resume has a write that misses the new generation if and only if, at its begin, every write in flight that can land and every entry a node may still route by addresses it |
| `ReshardClean.CleanReads` | embedded.go:2164-2200 | in every run that harms an id in no step and whose finalizes and clean-ups wait, every node finds the id's partition in every state and reads its last acknowledged write when it is idle |
| `ReshardClean.CleanAgreement` | embedded.go:3738-3789 | in every run that harms an id in no step, whatever the new generation holds for it while idle is the old generation's current value |
| `ReshardClean.CleanCompleteness` | embedded.go:3673-3689 | and after the second pass it is in the same state in both |
| `ReshardClean.RecoveredReads` | embedded.go:3582-3720 | after every uninterrupted reshard, whatever came before it, the collection is stable with the requested count and nodes on the new generation read the last acknowledged write of every idle id no step has harmed |
| `ReshardFresh.FreshSafeIff` | embedded.go:3634-3657 | no run of a fresh reshard lets a foreign write land in the new generation if and only if nothing in flight, and nothing a node may still route by, addresses it at the begin |
| `ReshardFresh.ClearStartsEmpty` | embedded.go:3634-3671 | from such a begin every run finds the new generation empty when it turns on dual writes |
| `ReshardProgram.Coordinator.Tick` | embedded.go:3582-3720 | one call, after whatever others do: it takes the machine's coordinator step, or fails and abandons the operation; without a fault it fails only where the machine waits |
| `ReshardProgram.Coordinator.DropNewGeneration` | embedded.go:3634-3643 | the drop loop ends ready to create |
| `ReshardProgram.Coordinator.CreateNewGeneration` | embedded.go:3644-3657 | the create loop ends ready to turn on dual writes, or to copy on resume |
| `ReshardProgram.Coordinator.CopyRecord` | embedded.go:3750-3786 | insert, re-check and guard of one record end at the next record |
| `ReshardProgram.Coordinator.CopyPartition` | embedded.go:3740-3787 | one source partition: scan, then every record |
| `ReshardProgram.Coordinator.CopyPass` | embedded.go:3738-3789 | one pass over every source partition |
| `ReshardProgram.Coordinator.Cutover` | embedded.go:3681-3719 | success ends stable on the target entry with every old partition gone; it fails only on a failed call, or with nodes still behind after everybody's last turn |
| `ReshardProgram.Coordinator.DropOldGeneration` | embedded.go:3710-3718 | every partition of the old generation goes, or a call failed |
| `ReshardProgram.Coordinator.SweepOrphans` | embedded.go:4149-4187 | the sweep removes exactly what the bounded probe reaches in every other generation, whatever others do meanwhile, and hands over to the decision that follows it |
| `ReshardProgram.Coordinator.Begin` | embedded.go:3582-3617 | refused exactly on a count out of range; a state left behind after a cutover is cleared and its orphans swept at once; then resume, refuse, no-op or begin |
| `ReshardProgram.Coordinator.TurnOnDualWrites` | embedded.go:3659-3671 | the reshard state is durable and the grace has passed, or the operation is abandoned |
| `ReshardProgram.Coordinator.VectorReshard` | embedded.go:3582-3720 | under any interference and any faults: refused exactly on a target that is not accepted; success means stable with the requested count and without the generation it moved away from; it fails only on a failed call, or with nodes or writes still behind after everybody's last turn |
| `ReshardProgram.Coordinator.VectorReshardAbort` | embedded.go:3862-3889 | refused exactly unless before the cutover; success leaves the collection stable on its old entry without the generation being built; it fails only on a failed call |
| `ResplitSpec.TwoPaths` | embedded.go:3391-3442 | staging and building the pristine records and then inserting the rich ones gives the same map as re-inserting every record one by one |
| `ResplitSpec.NewContent` | embedded.go:3381-3442 | after the copy every id has, in its new partition, what re-inserting its old record stores |
| `ResplitSpec.Stored` | ops/builtin.go:809-835 | re-inserting stores a record exactly as it was if and only if its version is not 0 |
| `ResplitSpec.PristineIff` | embedded.go:3391-3404 | a record goes the bulk way exactly if re-inserting it stores what a bulk build does and it has no key deadlines |
| `ResplitSpec.NewPlaced` | embedded.go:3395-3404 | and is in no other partition |
| `Resplit.Cluster.CreateNew` | embedded.go:3343-3360 | new partitions start empty whatever a failed attempt left; routed content untouched |
| `Resplit.Cluster.Classify` | embedded.go:3391-3404 | each record goes to exactly the group of its new partition, or to the per-record list |
| `Resplit.Cluster.StageAll` | embedded.go:3378-3423 | every pristine record of every old partition is staged once, in its new partition |
| `Resplit.Cluster.BuildNew` | embedded.go:3424-3431 | every bulk build runs on an empty partition |
| `Resplit.Cluster.InsertRich` | embedded.go:3432-3442 | the rich records land on top |
| `Resplit.Cluster.VectorResplit` | embedded.go:3322-3456 | a failure anywhere before the flip leaves routed content unchanged; after it every id reads as its old record re-inserted, in exactly its own partition; a retry without faults succeeds |
| `SweepSpec.SweepCompleteIff` | embedded.go:4172-4187 | one sweep removes every partition of a generation below the cap if and only if each has another within 256 indices below it |
| `SweepSpec.SweepTwice` | embedded.go:4172-4187 | a second sweep of a generation removes nothing |
| `SweepSpec.CleanupTwice` | embedded.go:4149-4166 | nor does a second sweep of all generations |
| `Resplit.Cluster.DropGenerationPartitions` | embedded.go:4172-4187 | removes exactly the orphans the bounded probe reaches, and returns their number |
| `Resplit.Cluster.VectorResplitCleanup` | embedded.go:4149-4166 | refused exactly without a catalog entry, a count of one being one on a single node; never touches the live generation; removes exactly the reachable orphans of the others |
| `Ranking.BestOfBests` | query_fanout.go:269-289 | the best n of everything are the best n of each partition's best m, for m at least n |
| `Ranking.TopUnique` | query_fanout.go:269-289 | without ties there is one top-n: sorted, as long as possible, nothing better left out |
| `Ranking.SortPermuted` | query_fanout.go:269-289 | without ties the sort does not depend on the order partitions answer in |
| `QueryLemmas.RunAccepts` | vector/query.go:1126-1224 | one index runs a tree exactly when it is structurally accepted |
| `QueryLemmas.CollectAccepts` | vector/query.go:1247-1309 | shipping lanes succeeds on exactly the same trees |
| `QueryLemmas.CollectCounts` | vector/query.go:1247-1309 | how many lanes a tree ships |
| `QueryLemmas.RunPermuted` | vector/query.go:1126-1224 | an index's answer depends only on what it stores |
| `QueryLemmas.PassingLane` | vector/query.go:1450-1522 | a leaf, or single-lane fusions around one, is a prefix of the leaf's ranking |
| `QueryLemmas.UnionExact` | query_fanout.go:243-259 | a source that keeps its whole pool is computed exactly from its partitions |
| `QueryLemmas.PassingExactIff` | vector/query.go:1104-1117 | a single-lane source is exact on every partitioning if and only if it keeps as many entries as the coordinator cuts to |
| `QueryMerge.TruncateLane` | query_fanout.go:269-289 | the top of the union by orientation and id |
| `QueryMerge.FoldUnionedLanes` | query_fanout.go:300-321 | of one lane its first k hits; of more, the first two fused with the distance of the first inverted exactly if it compares by distance, then each later lane once, in order, by score |
| `QueryMerge.FusionMerge` | query_fanout.go:118-172 | on any replies, the fold of every lane's union cut to its source's pool, nothing without sources |
| `QueryMerge.FlatExact` | query_fanout.go:99-117 | on the replies of any partitioning that fold is the answer of one index holding everything |
| `QueryMerge.MergeTreeNode` | query_fanout.go:218-262 | on any lane lists, the node folded over the lanes from the cursor on; the shared cursor ends past exactly the lanes the node ships; refused exactly when an expanded node is too deep |
| `QueryMerge.MergeSource` | query_fanout.go:231-258 | one source: an expanded node's own fold, or the cut union of the lane at the cursor |
| `QueryMerge.TreeExact` | query_fanout.go:174-189 | on the lanes shipped by any partitioning, every node of a fusion tree that distributes folds to the answer of one index holding everything |
| `QueryMeaning.AnswerMeans` | vector/query.go:1126-1224 | the answer of one index is what the tree means: every leaf's lane a top, by its order and to its size, of all the points it matches, folded up the tree in order |
| `QueryMeaning.MergedNodeMeans` | query_fanout.go:218-262 | the coordinator's merge of any tree is each source's top of all the hits shipped for it, to its size, folded in order |
| `QueryMeaning.OrientationIs` | query_fanout.go:243-259 | which sources compare by distance: distance leaves, reranks by a distance root, and single-lane fusions around one |
| `QueryMeaning.Limits` | vector/query.go:1126-1145 | an accepted tree nests at most four deep and has at most 64 sources a node |
| `QueryMeaning.LimitsReached` | vector/query.go:1126-1145 | and 64 leaves four deep are accepted |
| `QueryExact.TreeExactIff` | query_fanout.go:174-189 | a tree of leaves and fusions gets that answer on every engine and partitioning if and only if every single-lane fusion in it asks its leaf for as many entries as the coordinator keeps, up to the root's limit at a root with one lane |
| `QueryFanOut.TreeFusionMerge` | query_fanout.go:199-210 | the whole tree, with the cursor ending at the number of lanes each partition shipped |
| `QueryFanOut.RerankMerge` | query_fanout.go:331-359 | the root-order top k of the partitions' reranked candidates |
| `QueryFanOut.RerankExactIff` | query_fanout.go:331-359 | a fanned-out rerank is the root-order top of the partitions' own answers, on every engine and all data, if and only if its tree holds no nested multi-lane fusion |
| `QueryFanOut.QueryFanOut` | query_fanout.go:39-90 | answered exactly when one index accepts the tree; a tree that distributes gets that index's answer, for any partitioning and order, which is what the tree means; any fusion gets the merge of what the partitions shipped; a rerank gets the top of its partitions' answers, or nothing over a nested multi-lane fusion |
| `HybridGroups.TopHitsExact` | hybrid_fanout.go:97-115 | a lane's best entries over partitions are those of one index |
| `HybridGroups.HybridFanOut` | hybrid_fanout.go:29-142 | for any partitioning: without a sparse part the nearest dense matches, without a dense part the strongest sparse ones, with both the fusion of the dense and the sparse top lanes in that order, to the sizes asked for, or k and at least 50 |
| `HybridGroups.GroupFanOut` | groups_scroll_fanout.go:26-92 | for any partitioning, the grouping of the nearest candidates: fetchK of them if that covers k groups, otherwise four times that and at least 50 |
| `Scroll.EarlierIsOrder` | groups_scroll_fanout.go:185-260 | (key, id) order never ties two documents, whatever the keys are |
| `Scroll.ScrollFanOut` | groups_scroll_fanout.go:128-174 | the merged page is the page of one partition holding everything: by key and among equal keys by id, a top of everything past the cursor; the next cursor is its last document when it is full |
| `Scroll.CursorsAdvance` | embedded.go:3245-3250 | each cursor is strictly past every earlier one |
| `Scroll.ShownExactlyOnce` | groups_scroll_fanout.go:94-127 | with arbitrary changes between pages and partitions read at different moments, a document stored unchanged throughout is on exactly one page, once |
| `Scroll.IdScrollTerminates` | embedded.go:3245-3250 | an id scroll has at most one page more than there are ids |
| `Scroll.StaticPages` | groups_scroll_fanout.go:94-127 | on unchanging data the pages concatenate to the sorted list |
| `DirectLockProofs.StepKeeps` | direct.go:307-347 | as long as operations touch only what they lock: under a running one a shard holds that operation's partial effect on the serial contents, elsewhere the serial contents |
| `DirectLockProofs.Serializable` | direct.go:390-441 | every run of any number of threads whose operations touch only what they lock has the results and the effect of its operations run one at a time in the order they finished |
| `DirectLockProofs.NoLostIncrement` | direct.go:307-347 | however increments of a counter interleave, each counts |
| `DirectLockProofs.NoDeadlock` | direct.go:443-457 | whatever the handlers touch, if any operation is under way, some operation under way can take its next step |
| `DirectBatch.PutBatchConfinedIff` | sdk/wire/batch.go:120-125 | a batch put touches only what it locks if and only if all its keys share the first key's shard |
| `DirectBatch.UnsafeBatch` | ops/batch.go:18-42 | for every other batch, a run with one increment whose outcome no serial order gives |
| `DirectBatch.PutBatchSafeIff` | direct.go:349-366 | every run of a batch put with increments is as good as some serial order if and only if all its keys share the first key's shard |
| `DrainFence.CallFence.BeginCall` | direct.go:229-237 | a call gets in exactly if no drain has started; a channel somebody waits on stays closed exactly when nobody is inside |
| `DrainFence.CallFence.EndCall` | direct.go:241-249 | every channel a drain waits on is closed by the last call out and not before, and none twice |
| `DrainFence.CallFence.StartDrain` | direct.go:254-275 | nobody gets in any more; there is a channel to wait on exactly if somebody is inside, and it is open |
| `DrainFence.QuietAfterDrain` | direct.go:254-275 | once any drain has returned true nobody is inside, then or ever after |
| `DrainFence.RefusedWhileDraining` | direct.go:229-237 | nobody is admitted once a drain has started |
| `DrainFence.ClosedOnce` | direct.go:241-275 | no channel is closed twice |
| `DrainFence.DrainsWake` | direct.go:241-275 | when the last call has ended every waiting drain can wake up |
| `DrainFence.WakesOnlyWhenQuiet` | direct.go:254-275 | and no earlier |
| `BatchGet.DedupIds` | embedded.go:1458-1472 | exactly the places where an id occurs first, in order |
| `BatchGet.CountIds` | embedded.go:1390-1397 | the counting pass finds each group's size |
| `BatchGet.GroupIds` | embedded.go:1390-1407 | each id goes to exactly one group, which never outgrows its room |
| `BatchGet.Scatter` | embedded.go:1382-1452 | the rows of every owning partition, or the lowest that failed |
| `BatchGet.SplitRows` | embedded.go:1478-1505 | present points and missing ids, sorted |
| `BatchGet.AnswerUnique` | embedded.go:1299-1307 | there is one ascending, disjoint, covering answer |
| `BatchGet.VectorGetBatch` | embedded.go:1308-1368 | for every id list and partition count, that answer over the union of the partitions; an unreachable owner fails the batch |
| `AliasProgram.AliasStore.EnsureLoaded` | embedded.go:423-439 | the cache is the durable map after a load if and only if the read succeeded or there was nothing to read |
| `AliasProgram.AliasStore.SetAliases` | embedded.go:567-592 | the whole batch, durable and cached alike, or nothing |
| `AliasProgram.AliasStore.CheckBatch` | embedded.go:1922-1946 | the first objection of the batch, against the aliases as loaded, loaded only when a check needs them |
| `AliasProgram.AliasStore.AliasBatch` | embedded.go:1893-1948 | whatever the load and the put do: applied exactly when no action is objectionable and the put is durable, a target being a catalog entry, a collection or a physical partition; the first objection is reported |
| `AliasProgram.AliasStore.CreateCollection` | embedded.go:1767-1831 | refused exactly on a reserved, aliased, entered or taken name; takes a stored alias's name if and only if the aliases were not loaded and their read failed |
| `AliasCatalog.DeletesFor` | embedded.go:2098-2106 | one removal for every alias of a target, whatever the map's order |
| `AliasProgram.AliasStore.CleanupAliasesFor` | embedded.go:2098-2112 | all of them go, or none |
| `AliasProgram.AliasStore.DropPartitions` | embedded.go:1999-2010 | however far the calls get: the partitions, the collection, and the entry set to one partition |
| `AliasProgram.AliasStore.DropCollection` | embedded.go:2736-2753 | after a drop that got all the way every alias still leads somewhere if and only if the cascade was durable or there was nothing to cascade, and no alias led to a partition that went |
| `AliasCatalog.DroppedNameLivesOn` | embedded.go:1893-1896 | on a single node an alias of a dropped partitioned collection is accepted and leads nowhere, and its name cannot be created again; in a cluster neither |
| `AliasCatalog.PhysicalTargetDangles` | embedded.go:1927-1946 | an alias of a physical partition is accepted; a drop with a durable cascade leaves it dangling, and so does a reshard |
| `AliasCatalog.CreateShadowsIff` | embedded.go:1774-1784 | a create gives a collection the name of a stored alias if and only if their load fails and nothing else forbids the name |
| `AliasCatalog.StepSafeIff` | embedded.go:1893-2112 | a world whose aliases all lead to collections stays so through an event whose load succeeds if and only if the event is clean: durable or empty cascades, good last words in batches |
| `AliasCatalog.AlwaysSafeIff` | embedded.go:1767-2112 | over any sequence of lookups, batches, creates, reshards, drops and restarts with loads that succeed, that holds all along if and only if every event was clean when it came |
| `AliasCatalog.StaysSoundIff` | embedded.go:2098-2112 | every alias leads somewhere after whatever clean event comes next if and only if none leads to a physical partition |
| `AliasCatalog.ResolveTwice` | embedded.go:2033-2041 | resolving is idempotent |
| `AliasCatalog.BatchResolves` | embedded.go:2033-2041 | after an accepted and durable batch a name resolves to the target of the batch's last word on it, and to itself if that was a removal |
| `AliasCatalog.BatchLeaves` | embedded.go:2033-2041 | any other name resolves as before |
| `AliasCatalog.ReservedStays` | embedded.go:2033-2036 | a physical name is never rerouted |
| `AliasCatalog.ResolvesToCollection` | embedded.go:2033-2041 | over any sequence of clean events every stored alias resolves to an existing collection, and every other name to itself |
| `AliasProgram.AliasStore.ResolveAlias` | embedded.go:2033-2041 | in a safe world with a load that succeeds, an alias's collection, and any other name itself |
| `AliasCatalog.CreateRecords` | embedded.go:1784-1831 | a create that succeeds records exactly the requested partition count, or no entry for one partition |
| `AliasCatalog.AlwaysSound` | embedded.go:1767-2112 | over any sequence of clean events with loads that succeed, no alias has a collection's name, every alias leads to a collection, the cache is the durable map, and resolving is idempotent |
| `AliasProgram.LostByFailedLoad` | embedded.go:423-439 | after a failed first read any write leaves the durable aliases with that write and nothing else |
| `AliasCodec.RoundTrip` | embedded.go:454-508 | decoding an encoding gives the map back, for every enumeration order |
| `AliasCodec.PrefixRefused` | embedded.go:477-508 | no strict prefix of an encoding is accepted |
| `AliasCodec.DecodeAliasMap` | embedded.go:477-508 | reads stay inside the buffer on every byte string; the result is the format's |
| `AliasCodec.EncodeAliasMap` | embedded.go:454-473 | every entry once, in some order, filling the buffer exactly |
| `AliasCodec.U32Bytes` | embedded.go:454-473 | lengths are written least significant byte first |
| `AliasCodec.OneEntry` | embedded.go:452-473 | the layout: the count, then an alias with its length, then its target with its length |
| `CacheGeometry.FloorPow2` | cachebudget.go:89-94 | the largest power of two not above n |
| `CacheGeometry.PageCount` | cachebudget.go:113-131 | 16 to 31 whole pages for shares from 16 MiB up to 32 GiB |
| `CacheGeometry.DeriveIff` | cachebudget.go:113-153 | accepted exactly from 2 MiB per shard, the minimum the refusal names; the shares use the budget up to less than a byte per shard; pages within bounds |
| `CacheGeometry.DefaultBudget` | cachebudget.go:71-83 | a quarter of the detected memory rounded down, unless the multiplication overflows, or a fixed fallback when memory is unknown |
| `CacheGeometry.Config.ApplyBudget` | cachebudget.go:155-178 | the derived geometry within the budget, or nothing changed |

## Left out

- Payload mutations, `vector_operate` and compare-and-set writes in the reshard model: their effect on the new generation depends on what is there already.
- The lengths of the sleeps, timeouts, retry pauses and throttling: a wait ends when its condition holds, or is given up when the other actors have no more turns.
- Agreement: leaves out the id between its copy and its guard, and an id gone astray.
- Completeness: leaves out an id gone astray.
- Visibility: leaves out an id gone astray, and says nothing of a node that is not served; `ServedLostIff` says when that happens.
- Once a point has landed in a partition that does not own it, nothing more is claimed of its id; `FreshSafeIff` says when that can happen.
- Recovery: supposes at least one node, nodes that catch up and clients that retry, and no further failure.
- VectorReshard: the refusal of an unpartitioned collection is not in the model, whose collection is always partitioned; reading the configuration of an old partition is left out.
- Client writes appear as machine steps, not as a program of their own.
- Nested RERANK sources and nested multi-lane fusions under a single-lane one in the tree theorem: each partition ships its own fused or reranked result, so equality with one index is not promised.
- RerankMerge: equality with a one-partition rerank is not claimed, since each partition prefetches its own pool.
- Recommend and discover rewriting, filters and grouping inside queries: they act on leaves before the merge or are parameters.
- Documents without the order-by field: partitions exclude them before they reply.
- HybridFanOut: a negative k, which the code would slice with, is not in the model.
- FetchK: does not model 64-bit wrap-around of four times k times the group size.
- PutBatchSafeIff: the deadlines of the entries and puts the cache refuses are left out; a batch above the size limit is several batches.
- Lock-free reads of a direct store take part in the drain fence but not in the serial order.
- The record index that a raw put maintains is part of the put's single access.
- The named and multi-vector mirrors of these operations, which have the same shape with other op names.
- Index structures, text scoring, fusion arithmetic, Raft and the transports.
- AliasCodec.RoundTrip: supposes counts and lengths below 2^32, as the format does.
