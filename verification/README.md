# Ofen, modelled and proved

Ofen keeps container images on Kubernetes nodes before they are needed. An ImagePrefetch names
images and nodes; its controller picks the nodes, spreading them over zones, and rolls out one
NodeImageSet per node in bounded batches. On each node a controller turns a NodeImageSet into pull
tasks, a worker pulls, a handler reacts to image deletions, and statuses flow back until the
ImagePrefetch reports Ready. A garbage collector removes the sets of nodes that are gone.

The project models these parts in their own form (loops over lists, classes whose methods update
their fields, a state machine at lock granularity where threads meet) and proves what they promise.
`dafny verify dfyconfig.toml` checks everything.

## How it is organised

| part | modules | what is proved about it |
|---|---|---|
| node selection | `Selection`, `Spreading` | total, zone-optimal for every convex cost, widest coverage, least disruption |
| rollout | `ApiServer`, `Rollout`, `RolloutRuns`, `Convergence` | staircase, batch and upstream bounds over runs, exact number of rounds |
| status | `Readiness`, `Prefetch` | conservation, and that Ready means served, both ways, over every run of a changing cluster |
| node events | `NodeFilter` | which needed wake-ups are missed, exactly |
| pulls on a node | `PullStatus`, `Runner`, `SetController`, `EventWatcher` | the tables, one turn of the worker, what is enqueued and reported |
| all pulls at once | `PullEngine`, `PullEngineShape`, `PullEngineSafety`, `PullEngineRuns`, `PullEngineExtremes`, `PullEngineReconcile`, `PullEngineSolo` | pull bound and that it is attained, no stranded image, what a reconciliation achieves meanwhile, agreement with the pull method |
| garbage collection | `GarbageCollector` | exact, also while nodes and sets arrive |

`Basics`, `Names` and `Cluster` hold shared vocabulary: sequences and sets, the byte-wise order of
names, and the API objects.

Conventions. The API server is a consistent store; any request may be refused, which the field
`credit` decides (it counts the requests answered before one is refused, and every number is
allowed); contracts say how many requests an operation makes, so it gives up only when one of them is
refused. A write that changes the spec of a set bumps its generation and leaves its status alone;
deleting a set held by a finalizer marks it and bumps its generation too.
`sort.Slice` is not stable, so a pick is any candidate of least score. Containerd's answers are
parameters. Where a contract uses a specification function, a lemma says on the fields of the objects
what that function means (`OutcomeOnFields`, `StatusOnFields`, `StepWritesSpecs` and their like). The
pull engine's steps are single accesses to shared state, by any number of workers.

## What turned out not to hold

- The rollout gate does not look at the observed generation
  (`internal/controller/imageprefetch_controller.go:345-347`), so it takes a rewritten set for ready
  on the strength of its old status. `Prefetch.GateTrustsOldStatus` says exactly when, and
  `Prefetch.EditRunsThrough` what follows: after an edit that keeps the number of images, ceil(n / c)
  steps back to back complete the rollout without one status having been written, so without any of
  the new images; `Prefetch.EditInput` is such an input for any nodes. Ready itself is not affected,
  since a rewritten set is never counted.
- The upstream limit is kept while the selection is fixed and after every completed rollout, not
  while a changed selection is being rolled out. `RolloutRuns.UpstreamAfterStop` gives the exact set
  of upstream sets after a step that stopped, `RolloutRuns.ReselectionCanExceedLimit` an instance.
- One pull at a time per image holds only without deletions: handling a deletion clears the mark of
  a pull in flight (`internal/imgmanager/image_puller.go:336`). `PullEngineRuns.PullBound` is the
  bound, and `PullEngineExtremes.BoundIsAttained` attains it for every number of deletions.
- One all-nodes ImagePrefetch whose selector does not parse silences the node handler for all
  (`internal/controller/imageprefetch_controller.go:568-571`): `NodeFilter.NodeHandler`.
- An update that leaves readiness alone wakes nobody, although it changes the targets if and only if a
  ready node, in replica mode a selected one, starts or stops matching: `NodeFilter.RelabelIsMissed`.
- Taking the set of a selected node away from outside breaks the staircase, unless no selected node
  behind it has a set of a positive generation: `RolloutRuns.DeletionInStaircase`. The results over
  runs therefore leave out the nodes lost in this way, and only these.

Where `docs/design.md` and the code differ the model follows the code. The document has the node
controller watch Nodes and download a deleted image again (line 69); the code listens to containerd,
and `EventWatcher.NotifyController`, `PullEngineRuns.IdleAbsentIsWaiting` and
`PullEngineReconcile.ReconcileAccountsForAll` state what it achieves. The document says that
`allNodes` means all nodes; the code takes the ready nodes that match the selector
(`Prefetch.SelectTargetNodes`). The retry limit shown in its example does not exist: a failing task
is retried for ever (`Runner.RunOnce`).

## Model

| member | source | states |
|---|---|---|
| `Selection.FilterReadyNodes` | internal/controller/imageprefetch_controller.go:158-166 | the ready nodes in list order; the first Ready condition decides, `ReadyTargetsMembers` says who is in it |
| `Selection.ReadyTargetsMembers` | internal/controller/imageprefetch_controller.go:121-134 | the listed and filtered nodes are exactly those that match the selector and are ready, with names still unique |
| `Selection.ReadyIsDecided` | internal/util/util.go:18-26 | a node is ready if and only if its first condition of kind Ready has status True |
| `Selection.GetZoneCount` | internal/controller/imageprefetch_controller.go:243-250 | for every zone, absent ones included, the map holds the number of selected nodes in it |
| `Cluster.ZonesOnLabels` | internal/controller/imageprefetch_controller.go:246-247 | nodes share a zone if and only if their zone labels agree; all unlabelled nodes share one |
| `Selection.FilterSelectNodes` | internal/controller/imageprefetch_controller.go:252-264 | candidates are exactly the ready nodes whose name is not selected |
| `Selection.PickFirst` | internal/controller/imageprefetch_controller.go:231-237 | the pick is a candidate in a least populated zone; which one among equals is left open |
| `Selection.IndexByName` | internal/controller/imageprefetch_controller.go:206-209 | every ready node is found under its name |
| `Selection.CandidateExists` | internal/controller/imageprefetch_controller.go:226-229 | while fewer nodes are chosen than are ready a candidate is left, so "no more nodes" cannot occur |
| `Selection.SelectNodesByReplicas` | internal/controller/imageprefetch_controller.go:198-241 | fails if and only if fewer nodes are ready than requested, always with "not enough nodes"; otherwise returns the names of a selection: the first still-ready old nodes, then only best picks, exactly Replicas in all |
| `Selection.IsNeedNodeSelection` | internal/controller/imageprefetch_controller.go:168-187 | a new choice is due if and only if there is none, the spec is not observed, or a selected node is not a ready target |
| `Spreading.SelectionShape` | internal/controller/imageprefetch_controller.go:198-241 | every selection consists of Replicas distinct ready nodes |
| `Spreading.GreedyIsLevel` | internal/controller/imageprefetch_controller.go:221-238 | after every pick, a zone that gained a node has at most one node more than any zone with a candidate left |
| `Spreading.SpreadingIsOptimal` | internal/controller/imageprefetch_controller.go:211-269 | among all choices of Replicas ready nodes that contain the kept ones, the selection minimises the sum over zones of every convex cost of the zone's count |
| `Spreading.SumOfSquaresMinimal` | internal/controller/imageprefetch_controller.go:211-269 | in particular the sum of squares of the zone counts is least |
| `Spreading.FullestZoneMinimal` | internal/controller/imageprefetch_controller.go:211-269 | and every choice has a zone at least as full as any zone of the selection: the maximum is least |
| `Spreading.ZoneCoverage` | internal/controller/imageprefetch_controller.go:221-269 | covers exactly min(zones with ready nodes, zones of the kept nodes + nodes added); a fresh selection min(zones, Replicas) |
| `Spreading.MinimalDisruption` | internal/controller/imageprefetch_controller.go:202-219 | keeps exactly min(Replicas, old nodes still ready) old nodes, which no other choice of the size exceeds |
| `Spreading.ReselectionIsStable` | internal/controller/imageprefetch_controller.go:212-224 | with all old nodes ready, reselecting gives the first Replicas of them, or all of them followed by new ones: same list, subset or superset |
| `Names.Sort` | internal/controller/imageprefetch_controller.go:84 | an ascending permutation of the names |
| `Names.SortedUnique` | internal/controller/imageprefetch_controller.go:84 | there is only one such permutation, so the rollout order depends on the set of names alone |
| `Names.LexOnFirstDifference` | internal/controller/imageprefetch_controller.go:84 | the order compared by is decided at the first differing character, a prefix coming first |
| `ApiServer.CountListed` | internal/controller/imageprefetch_controller.go:344-350 | counting over a list answer in whatever order counts the stored sets that pass the test |
| `Rollout.GetMaxNodeImageSetsToCreate` | internal/controller/imageprefetch_controller.go:341-356 | one batch beyond the number of gate-ready sets while that is below the number desired, else everything |
| `Rollout.ApplyNode` | internal/controller/imageprefetch_controller.go:296-312 | turns the store with the first i nodes written into the one with i + 1, policy by rank; leaves it only if the request is refused |
| `Rollout.ApplyNodes` | internal/controller/imageprefetch_controller.go:283-313 | writes the nodes in order up to the limit: it stops before the first node beyond it, or ends refused if and only if one of that many writes is, or has written all |
| `Rollout.ApplyFirstAt` | internal/controller/imageprefetch_controller.go:284-313 | after k writes the first k nodes carry the desired spec, bumped only if it changed, and every other set is untouched |
| `Rollout.DeleteUnnecessary` | internal/controller/imageprefetch_controller.go:315-338 | exactly the sets of unselected nodes are deleted or marked, with one list and one request each; it stops short, with some of them done and nothing else, if and only if one of these is refused |
| `Rollout.CreateOrUpdateNodeImageSet` | internal/controller/imageprefetch_controller.go:271-339 | the new store and the way the step ended, as the step relation the theorems below are about; it is refused if and only if one of the requests it has to make is |
| `RolloutRuns.StepEffect` | internal/controller/imageprefetch_controller.go:282-338 | pointwise effect of a step of any outcome: a prefix rewritten, the rest of the selection untouched, others untouched unless it completed |
| `RolloutRuns.StepWritesSpecs` | internal/controller/imageprefetch_controller.go:300-308 | the sets a step wrote carry the images, pull secrets and generation of the ImagePrefetch, their node, and Default exactly for the first ImagePullNodeLimit ranks; every selected node when it completed, those up to the limit when it stopped |
| `RolloutRuns.BatchOnFields` | internal/controller/imageprefetch_controller.go:341-356 | how many nodes a step may process, counted on the conditions, generations and report numbers of the stored sets |
| `RolloutRuns.StaircaseOverRuns` | internal/controller/imageprefetch_controller.go:282-313 | over every run with a fixed selection, with spec edits, status writes, finalizers, refusals and deletions by anybody, the generations are non-increasing along the selected nodes and the current ones form a prefix, leaving out nodes whose set somebody else deleted |
| `RolloutRuns.DeletionInStaircase` | internal/controller/imageprefetch_controller.go:284-313 | removing a selected set from outside keeps the staircase if and only if no selected node behind it has a set of a positive generation |
| `RolloutRuns.FreshIsSteady` | internal/controller/imageprefetch_controller.go:284-313 | a selection without sets of its own meets the assumption of the run theorems |
| `RolloutRuns.BatchBound` | internal/controller/imageprefetch_controller.go:282-288 | processed nodes not ready at list time number at most one batch plus the gate-ready sets outside the processed prefix; exactly that when the gate stops the step |
| `RolloutRuns.PromotionBound` | internal/controller/imageprefetch_controller.go:282-313 | a step that promotes a node leaves, lost nodes aside, at most one batch of unready current sets plus the gate-ready sets outside the selection or of lost nodes, even after lost readiness |
| `RolloutRuns.BatchOverRuns` | internal/controller/imageprefetch_controller.go:341-356 | from any state without current sets outside the selection on, every step of every run that promotes a node leaves at most one batch unready; with nodes lost to deletions by others these are left out, and those of them that are ready add to the bound |
| `RolloutRuns.BatchFromNothing` | internal/controller/imageprefetch_controller.go:341-356 | so in the first rollout of an ImagePrefetch, which starts from an empty store, with the same allowance |
| `RolloutRuns.BatchAfterEdit` | internal/controller/imageprefetch_controller.go:341-356 | and after a spec edit, whatever was there before, with the same allowance |
| `RolloutRuns.UpstreamBoundOverRuns` | internal/controller/imageprefetch_controller.go:296-299 | with a fixed selection, in every state of every run from any store, only the first ImagePullNodeLimit nodes and those that were Default at the start are; so within the limit if the start was, an empty store for one |
| `RolloutRuns.UpstreamAfterStop` | internal/controller/imageprefetch_controller.go:286-299 | from any history, which sets may pull upstream after a stopped step, and how many |
| `RolloutRuns.ReselectionCanExceedLimit` | internal/controller/imageprefetch_controller.go:286-299 | an instance where a changed selection exceeds the limit until the rollout completes |
| `RolloutRuns.UpstreamAfterCompletion` | internal/controller/imageprefetch_controller.go:296-336 | after a completed step from any history exactly min(limit, n) selected sets are Default, they are the least names, and all others are being deleted |
| `Convergence.NextRound` | internal/controller/imageprefetch_controller.go:341-356 | if the written sets become ready, the next step reaches at least one whole batch further, or everything |
| `Convergence.ConvergesInTime` | internal/controller/imageprefetch_controller.go:271-356 | from any store, ceil(n / c) steps give every selected node the desired set and every other set a deletion |
| `Convergence.RoundsAreExact` | internal/controller/imageprefetch_controller.go:271-356 | starting without current sets, step j handles exactly the first min(n, (j + 1) c) nodes and completes if and only if that is all |
| `Convergence.ConvergedIsStable` | internal/controller/imageprefetch_controller.go:271-339 | a further step, whatever its outcome, rewrites nothing, and does not stop while all sets are ready |
| `Readiness.CalculateStatus` | internal/controller/imageprefetch_controller.go:480-511 | available, pulling and failing are the counts of the three tests over the listed sets; `Readiness.TallyOnFields` says what is tested |
| `Readiness.TallyOnFields` | internal/controller/imageprefetch_controller.go:484-508 | on the fields: counted are the sets of the current generation with the latest generation observed and conditions set; available, pulling and failing follow from their two conditions |
| `Readiness.StatusOnFields` | internal/controller/imageprefetch_controller.go:377-462 | every field and condition of the status written, on the fields of the stored sets |
| `Readiness.UpdateStatus` | internal/controller/imageprefetch_controller.go:377-471 | the status written is the one the store determines, with nothing written if and only if the list or the write is refused, and it looks again later if and only if it is not Ready |
| `Readiness.TallyConserves` | internal/controller/imageprefetch_controller.go:484-508 | available + pulling is the number of counted sets, at most the sets stored; with statuses of the node controllers failed is at most pulling |
| `Readiness.ReadyBoundsFailures` | internal/controller/imageprefetch_controller.go:422-462 | when Ready, failed nodes are at most the counted sets beyond the selection's size, so none when the sets are those of the selection |
| `Readiness.ReadyIsBalance` | internal/controller/imageprefetch_controller.go:422-442 | Ready if and only if as many counted available sets lie outside the selection as selected nodes lack one |
| `Prefetch.SelectTargetNodes` | internal/controller/imageprefetch_controller.go:118-156 | which answers are possible, as `Prefetch.OutcomeOnFields` spells out; a fault if and only if the one list is refused |
| `Prefetch.OutcomeOnFields` | internal/controller/imageprefetch_controller.go:118-156 | for every ImagePrefetch and node list: all-nodes mode names exactly the ready matching nodes; replica mode keeps the recorded nodes if they can stay, and otherwise chooses Replicas nodes if and only if that many are ready and match; each error exactly in its case |
| `Prefetch.RollOut` | internal/controller/imageprefetch_controller.go:84-90 | rollout and status write after the selection: how it ends follows from how many requests are answered |
| `Prefetch.Reconcile` | internal/controller/imageprefetch_controller.go:79-90 | one reconciliation as the step of the world the run theorems use; which of its requests is refused, if any, follows from their numbers |
| `Prefetch.ReconcileSelects` | internal/controller/imageprefetch_controller.go:79-85 | once the node list is answered, a reconciliation fails to select exactly when the selector does not parse, there is no target to choose, or too few nodes are eligible; and which nodes it goes on with |
| `Prefetch.TargetsAreSound` | internal/controller/imageprefetch_controller.go:118-196 | every list of targets names distinct nodes that are ready and match now, Replicas of them when chosen for a new spec |
| `Prefetch.PickedShape` | internal/controller/imageprefetch_controller.go:79-85 | and the list the rollout works on is in addition sorted |
| `Prefetch.ReconciliationIsStable` | internal/controller/imageprefetch_controller.go:79-85 | with all recorded nodes still ready targets, a reconciliation picks the same sorted list if Replicas is its length, a subset if it is smaller, a superset if it is larger |
| `Prefetch.StepKeepsConsistent` | internal/controller/imageprefetch_controller.go:300-312 | no rollout step makes a stored status run ahead of its spec or claim reports it does not have |
| `Prefetch.GateTrustsOldStatus` | internal/controller/imageprefetch_controller.go:344-350 | a rewritten set is never counted, and is gate-ready if and only if its old status was available with as many reports as the new spec has images |
| `Prefetch.EditKeepingImageCount` | internal/controller/imageprefetch_controller.go:341-356 | so after an edit keeping the number of images, over available sets, every step finds all it wrote ready at once, with no status written since |
| `Prefetch.EditRunsThrough` | internal/controller/imageprefetch_controller.go:341-356 | the whole rollout of such an edit: ceil(n / c) steps back to back complete it with every status as before the first |
| `Prefetch.EditInput` | internal/controller/imageprefetch_controller.go:341-356 | such an edit and rollout exist for any nodes: all sets rewritten to the new image, every status still about the old one |
| `Prefetch.ServingWasReady` | internal/controller/imageprefetch_controller.go:484-508 | a set counted as available after a stopped step was gate-ready before it |
| `Prefetch.StoppedIsNotReady` | internal/controller/imageprefetch_controller.go:286-288 | a step whose rollout stopped at the limit never writes Ready |
| `Prefetch.CountedAreSelected` | internal/controller/imageprefetch_controller.go:484-497 | after a completed step only sets of selected nodes are counted: others are marked, and a marked set is never observed |
| `Prefetch.ReadyIffServed` | internal/controller/imageprefetch_controller.go:402-442 | after any unrefused step, Ready if and only if it completed and every selected node is served |
| `Prefetch.ReadyIsSound` | internal/controller/imageprefetch_controller.go:396-442 | a reconciliation writes Ready if and only if its rollout completed and every selected node has a set of the current generation, observed at its latest and available, and looks again later if and only if not; when Ready every selected node is a target with the desired set and no failure is reported |
| `Prefetch.ServedOnFields` | internal/controller/imageprefetch_controller.go:484-501 | being served on the fields of the stored sets |
| `Prefetch.SettledStatus` | internal/controller/imageprefetch_controller.go:377-471 | everything else a settled reconciliation has written, on the fields of the sets it left, spec and generation untouched |
| `Prefetch.CreatedAfterCompletion` | internal/controller/imageprefetch_controller.go:402-420 | after completion NodeImageSetsCreated is true if and only if no set outside the selection is left |
| `Prefetch.SelectionOverRuns` | internal/controller/imageprefetch_controller.go:379-384 | in every state of every run, with edits, node changes, mode switches and failures, the recorded selection is sorted, duplicate-free, and of size Replicas once the spec is observed in replica mode |
| `Prefetch.AvailabilityIsObserved` | internal/controller/nodeimageset_controller.go:169-217 | in every such run, an up-to-date available set had its controller read that very spec and see all its images |
| `Prefetch.ReadyOverRuns` | internal/controller/imageprefetch_controller.go:396-442 | in every run, with edits, node changes, stale status writes and deletions by anybody, a reconciliation writes Ready if and only if it completed and every selected node has a set of the current generation, observed at its latest and available; then each is a target whose set carries the desired spec and whose controller saw all images, and no failure is reported |
| `NodeFilter.NodeHandler` | internal/controller/imageprefetch_controller.go:546-594 | wakes exactly the all-nodes ImagePrefetches whose selector matches the node and the others that have selected it, or none at all when an all-nodes selector does not parse |
| `NodeFilter.FilterIsComplete` | internal/controller/imageprefetch_controller.go:546-640 | an event that changes the targets of a settled ImagePrefetch wakes it if and only if it is a creation, a deletion or a readiness flip, whatever else it changes |
| `NodeFilter.EventReachesHandler` | internal/controller/imageprefetch_controller.go:546-640 | joined with the handler: with every listed all-nodes selector parsable, a creation, deletion or flip that changes the targets passes the predicate and has the handler answer with this ImagePrefetch |
| `NodeFilter.RelabelIsMissed` | internal/controller/imageprefetch_controller.go:623-636 | an update that leaves readiness alone wakes nobody, and changes the targets of a settled ImagePrefetch if and only if a ready node, in replica mode a selected one, starts or stops matching |
| `PullStatus.ImagePullStatus.TryStartPulling` | internal/imgmanager/image_puller.go:109-122 | succeeds if and only if no pull is marked; then marks, clears the error, stamps the start |
| `PullStatus.ImagePullStatus.StopPulling` | internal/imgmanager/image_puller.go:102-107 | clears the mark, keeps error and start time |
| `PullStatus.ImagePullStatus.SetError` | internal/imgmanager/image_puller.go:44-48 | sets the error, keeps the mark |
| `PullStatus.NodeImageSetStatus.GetOrCreateImageStatus` | internal/imgmanager/image_puller.go:124-130 | the entry there is, or a new unpulled one, and no other entry changes |
| `PullStatus.ImagePuller.NewNodeImageSetStatus` | internal/imgmanager/image_puller.go:154-158 | the set is tracked with an empty table, others keep theirs |
| `PullStatus.ImagePuller.UpdateNodeImageSetStatus` | internal/imgmanager/image_puller.go:165-185 | the tracked references become exactly the given ones, retained ones keep their status object, new ones start unpulled, no other set is touched, and repeating it changes nothing |
| `PullStatus.ImagePuller.DeleteNodeImageSetStatus` | internal/imgmanager/image_puller.go:187-189 | the set is no longer tracked, all others are |
| `PullStatus.ImagePuller.GetImageStatus` | internal/imgmanager/image_puller.go:242-278 | exactly when each state is reported, from presence, mark, error and policy; not found under MirrorOnly is the one temporary failure |
| `PullStatus.ReportedOnFields` | internal/imgmanager/image_puller.go:253-277 | the reported state case by case, for every presence, mark, error and policy |
| `PullStatus.ImagePuller.PullImage` | internal/imgmanager/image_puller.go:201-240 | for every combination of containerd's answers: the entry afterwards, the size and times recorded, when an error is returned, and that no other entry changes |
| `PullStatus.PullOutcomes` | internal/imgmanager/image_puller.go:207-239 | what a pull comes to case by case: an unmarked entry ends unmarked whatever containerd answers, only a failed pull records an error, an image that appeared meanwhile counts as success |
| `PullStatus.Attempt` | internal/imgmanager/image_puller.go:218-239 | the part after the entry is found: a taken mark changes nothing, otherwise the mark is given back on every path with error, size and times as the answers demand |
| `PullStatus.ImagePuller.PullTracked` | internal/imgmanager/image_puller.go:215-239 | the same for a tracked set: entry, size, times and error, and no other entry changes |
| `PullStatus.ImagePuller.HandleDelete` | internal/imgmanager/image_puller.go:332-340 | every tracked entry of the deleted image becomes unpulled; sizes, times and all other entries stay |
| `PullEngineShape.StepKeepsShape` | internal/imgmanager/image_puller.go:124-240 | every step keeps pointers leading to objects of the right set and image, identities never reused |
| `PullEngineSafety.StepKeepsBounded` | internal/imgmanager/image_puller.go:102-122 | every step keeps: mark at most pulls in flight at most mark plus marks cleared by the deletion handler, for every entry |
| `PullEngineSafety.WorkerHandsOver` | internal/imgmanager/image_puller.go:201-240 | a worker that drops the task covering an entry has the image there, or another worker, task or deletion looking after it |
| `PullEngineSafety.StepKeepsInv` | internal/imgmanager/image_puller.go:201-240 | every step of every thread keeps the whole invariant |
| `PullEngineRuns.InvAfter` | internal/imgmanager/image_puller.go:201-340 | it holds after every sequence of steps from a process start |
| `PullEngineRuns.PullBound` | internal/imgmanager/image_puller.go:109-122 | with f pulls in flight, mark b and d deletions handled: b <= f <= b + d; without deletions at most one pull, and the mark says whether there is one |
| `PullEngineExtremes.BoundIsAttained` | internal/imgmanager/image_puller.go:332-340 | for any n tasks of an image, runs with n - 1 deletions and the mark set, and with n deletions and no mark, in which all n pull at once: f = b + d for every d |
| `PullEngineExtremes.TwoPullsAfterOneDeletion` | internal/imgmanager/image_puller.go:332-340 | in particular any two tasks of an image pull at once after a run with one deletion |
| `PullEngineRuns.NoImageStranded` | internal/imgmanager/image_puller.go:242-278 | for a tracked set and an absent image: in progress means a worker pulls for it, failed means a task or an unhandled deletion exists, anything else reads waiting |
| `PullEngineRuns.IdleAbsentIsWaiting` | internal/imgmanager/image_puller.go:242-278 | an absent image of a tracked set with no task and no deletion to handle reads waiting |
| `PullEngineReconcile.StepStaysAccounted` | internal/imgmanager/image_puller.go:201-240 | every step of every thread keeps a tracked image present, awaiting a deletion, or seen to by a task that will not drop it, unless the set or image is dropped or a deletion has been handled |
| `PullEngineReconcile.LooksAreReported` | internal/imgmanager/image_puller.go:242-278 | the reader's accesses in one go answer the reported state |
| `PullEngineReconcile.MovesKeepSound` | internal/imgmanager/image_puller.go:242-278 | with any steps between its accesses, an answer other than waiting stays accounted for |
| `PullEngineReconcile.ReconcileAccountsForAll` | internal/controller/nodeimageset_controller.go:121-157 | a reconciliation reads the state of an image access by access and enqueues it if the answer is waiting; whatever happens in between and afterwards, the image stays accounted for until the set or image is dropped or a deletion of it has been handled, which wakes the controller again |
| `PullEngineRuns.DeletedStaysDeleted` | internal/imgmanager/image_puller.go:187-240 | whatever pulls were in flight, a dropped set is not tracked again until a reconciliation tracks it |
| `PullEngineSolo.AloneIsPullImage` | internal/imgmanager/image_puller.go:201-240 | the engine's steps for an attempt without interference add up to what PullImage does: same entry, other entries untouched, a retry exactly when it returns an error |
| `PullEngineSolo.FromConfirm` | internal/imgmanager/image_puller.go:221-239 | from the mark on, with the image there by then or not: the rest of the pull, and containerd pulls only an image still absent |
| `PullEngineSolo.AloneIsTask` | internal/controller/runner.go:65-83 | the steps of a whole task without interference are what the runner makes of it |
| `PullEngineSolo.TurnEnds` | internal/controller/runner.go:45-61 | afterwards a task to be tried again waits out its delay, any other is gone |
| `Runner.WorkQueue.Get` | internal/controller/runner.go:40-43 | hands out a queued task that is not being processed, or none exists |
| `Runner.ProcessTask` | internal/controller/runner.go:65-83 | a present image costs nothing; otherwise entry and error are those of the pull, and no other entry changes |
| `Runner.TaskOutcomes` | internal/controller/runner.go:65-83 | case by case: nothing for a present image or an untracked set, otherwise an unmarked entry ends unmarked, and failure exactly when containerd fails to answer or the pull fails |
| `Runner.Serve` | internal/controller/runner.go:45-61 | a failed task is delayed, a succeeded one not, and a stopping process does nothing with the task |
| `Runner.RunOnce` | internal/controller/runner.go:38-63 | a task leaves the queue for good if and only if its pull did not fail or the process is stopping, and its entry is what the pull makes it; a failed one is delayed; no other entry or task moves |
| `SetController.CalculateImageStatus` | internal/controller/nodeimageset_controller.go:287-310 | downloaded and failed are the numbers of images reported so; temporary failures and failing checks count as neither |
| `SetController.CountsExclude` | internal/controller/nodeimageset_controller.go:291-308 | downloaded + failed never exceeds the images desired |
| `SetController.CountIsFull` | internal/controller/nodeimageset_controller.go:209-217 | the count of a state is full if and only if every image is in that state |
| `SetController.CountIsZero` | internal/controller/nodeimageset_controller.go:227-241 | the count of a state is zero if and only if no image is in that state |
| `SetController.AllDownloaded` | internal/controller/nodeimageset_controller.go:209-217 | all images of a tracked set count as downloaded if and only if containerd confirmed every one |
| `SetController.ReportImages` | internal/controller/nodeimageset_controller.go:181-207 | one report per image in order with the state read, or nothing if a check failed |
| `SetController.UpdateStatus` | internal/controller/nodeimageset_controller.go:159-258 | available if and only if every image was confirmed present, not succeeded if and only if some absent image has an error that counts, one report per image, the generation read is the one observed; it writes nothing if and only if a check failed |
| `SetController.CollectPendingImages` | internal/controller/nodeimageset_controller.go:140-157 | all images of an unseen spec; otherwise exactly those of a tracked set that are absent and have no entry or one with neither mark nor error |
| `SetController.TrackImages` | internal/controller/nodeimageset_controller.go:112-119 | the set is tracked afterwards, with exactly the images of a new spec |
| `SetController.EnqueueAll` | internal/controller/nodeimageset_controller.go:127-135 | every pending image gets a task of this set, and no other task is added or lost |
| `SetController.ReconcileNodeImageSet` | internal/controller/nodeimageset_controller.go:95-138 | tracked, table of a new spec exact, other sets keep their tables; every image of a new spec, and every absent image without mark or error, has a task; an unreadable pull secret stops it before any of this |
| `SetController.Reconcile` | internal/controller/nodeimageset_controller.go:50-93 | what is done for a foreign, deleted, unfinalized or live set, and after an unreadable secret, a failing check or a refused write; the status written is one the run theorems about Ready admit, and it looks again later if and only if some image is not there |
| `GarbageCollector.DeleteNodeImageSet` | internal/controller/garbage_collector.go:88-109 | our finalizer and the set are gone, or it is held by others and marked; a refusal leaves at most the finalizer removed |
| `GarbageCollector.CollectListed` | internal/controller/garbage_collector.go:71-82 | exactly the listed sets without a node are collected; others are spared even when a request is refused |
| `GarbageCollector.RemoveStaleNodeImageSets` | internal/controller/garbage_collector.go:53-86 | whatever arrives between the two lists, no set whose node exists at the second and no newly arrived set is touched, and without refusals all stale ones are collected |
| `GarbageCollector.CollectionIsExact` | internal/controller/garbage_collector.go:71-82 | with no finalizers but ours, what remains is exactly the sets whose node exists, unchanged |
| `GarbageCollector.CollectionMarksHeld` | internal/controller/garbage_collector.go:88-109 | a stale set that others hold stays, marked, with only our finalizer gone |
| `EventWatcher.NotifyController` | internal/controller/containerd_event_watcher.go:66-93 | notified are exactly the sets of this node that name the deleted image, once per occurrence |
| `EventWatcher.NoticesArePlaces` | internal/controller/containerd_event_watcher.go:78-92 | one notification for each place where a set of this node names the image |

## Left out

- Set names: a name is a truncated hash; sets are stored under their node, which assumes that the sets of one ImagePrefetch do not collide.
- Deletion and finalizer of an ImagePrefetch (`internal/controller/imageprefetch_controller.go:54-77` and `93-116`): two short branches before the modelled part.
- Kubernetes client: cache lag, field ownership of server-side apply and retries on conflict.
- NodeImageSets re-created under the same name while a controller still holds the old object: a stale status write is taken to come from an earlier version of the same object.
- RolloutRuns.StaircaseOverRuns: needs a fixed selection, because a new selection may put a node without a set before nodes that have one.
- RolloutRuns.BatchOverRuns: starts where no current set is left outside the selection; `RolloutRuns.PromotionBound` covers the other states with their exact slack.
- NodeFilter.FilterIsComplete: about one event at a time on an ImagePrefetch that is settled before it.
- PullEngineReconcile.ReconcileAccountsForAll: that a handled deletion brings about a reconciliation is the notification of `EventWatcher.NotifyController`; one lost at shutdown is not modelled.
- Liveness of the workers: that a queued task is eventually taken depends on scheduling and is not stated.
- PullStatus.ImagePuller.PullImage: one call without interference; interleavings are the subject of the pull engine.
- PullStatus.ImagePuller.HandleDelete: does not describe entries added while it runs; the pull engine does.
- Runner.RunOnce: one turn of the endless loop; the rate limiter's delays are not measured, and the pull engine leaves out the turn skipped at shutdown.
- Label selectors: parsing is a parameter, a selector is absent, unparsable or a test on labels.
- Containerd, mirrors and registry credentials: only "exists", "pulled" and the kind of error matter; decoding of deletion events is not part of the model.
- Secrets: only whether looking them up fails.
- Metrics, events, logs, error texts, image sizes in reports, and times beyond the start and completion stamps.
- SHA-1 naming, webhooks, admission policies, generated code, command-line entry points and the collector's ticker.
