/** The ImagePrefetch reconciler as a whole, and what holds over runs of a changing cluster. */
module Prefetch {
  import opened Basics
  import opened Names
  import opened Cluster
  import opened Selection
  import opened Spreading
  import opened ApiServer
  import opened Rollout
  import opened RolloutRuns
  import opened Convergence
  import opened Readiness

  // ---- one reconciliation ------------------------------------------------------------------

  datatype Report =
    | SelectionFailed(error: SelectError)
    | RolloutRefused(sel: seq<string>)
    | StatusRefused(sel: seq<string>, out: Outcome)
    | Settled(sel: seq<string>, out: Outcome, requeue: bool)

  method SelectTargetNodes(api: ApiServer, p: ImagePrefetch) returns (res: Result<seq<string>, SelectError>)
    requires UniqueNames(api.nodes)
    modifies api`credit
    ensures res != Err(ApiFault) ==> TargetOutcome(p, api.nodes, res)
    ensures res == Err(ApiFault) <==> !p.spec.selector.BadSelector? && old(api.credit) == 0
    ensures api.credit == if p.spec.selector.BadSelector? then old(api.credit) else Spent(old(api.credit), 1)
  {
    if p.spec.selector.BadSelector? {
      return Err(SelectorUnparsable);
    }
    var allNodes := api.ListNodes(p.spec.selector);
    if allNodes.None? {
      return Err(ApiFault);
    }
    var readyNodes := FilterReadyNodes(allNodes.value);
    ReadyTargetsMembers(p.spec.selector, api.nodes);
    if p.spec.allNodes {
      return Ok(NodeNames(readyNodes));
    }
    if p.spec.replicas > 0 {
      var needsNodeSelection := IsNeedNodeSelection(p, readyNodes);
      if needsNodeSelection {
        res := SelectNodesByReplicas(p.status.selectedNodes, p.spec.replicas, readyNodes);
        return;
      }
      return Ok(p.status.selectedNodes);
    }
    return Err(NoTarget);
  }

  /** Rolls the selection out and reports; the credit says how far it gets. */
  method RollOut(api: ApiServer, cfg: Config, p: ImagePrefetch, sel: seq<string>) returns (r: Report)
    requires WellKeyed(api.sets) && Distinct(sel) && api.prefetch == p
    modifies api`sets, api`prefetch, api`credit
    ensures RolledOut(cfg, old(WorldOf(api)), WorldOf(api), sel, r)
    ensures RefusedOnlyIfNeeded(cfg, old(WorldOf(api)), old(api.credit) + 1, r)
  {
    ghost var pre := api.sets;
    var out := CreateOrUpdateNodeImageSet(api, cfg, p, sel);
    if out == Refused {
      return RolloutRefused(sel);
    }
    StepKeepsKeys(cfg, p, sel, pre, api.sets, out);
    var requeue := UpdateStatus(api, p, sel);
    if requeue.None? {
      return StatusRefused(sel, out);
    }
    return Settled(sel, out, requeue.value);
  }

  method Reconcile(api: ApiServer, cfg: Config) returns (r: Report)
    requires UniqueNames(api.nodes) && WellKeyed(api.sets) && Distinct(api.prefetch.status.selectedNodes)
    modifies api
    ensures ReconcileStep(cfg, old(WorldOf(api)), WorldOf(api), r)
    ensures RefusedOnlyIfNeeded(cfg, old(WorldOf(api)), old(api.credit), r)
  {
    var p := api.prefetch;
    var selected := SelectTargetNodes(api, p);
    if selected.Err? {
      return SelectionFailed(selected.error);
    }
    TargetsAreDistinct(p, api.nodes, selected.value);
    var sel := Sort(selected.value);
    DistinctMultiset(selected.value, sel);
    assert Picks(WorldOf(api), sel);
    r := RollOut(api, cfg, p, sel);
  }

  datatype World = World(p: ImagePrefetch, nodes: seq<Node>, sets: OwnedSets)

  function WorldOf(api: ApiServer): World
    reads api
  {
    World(api.prefetch, api.nodes, api.sets)
  }

  ghost predicate Picks(w: World, sel: seq<string>) {
    exists names :: TargetOutcome(w.p, w.nodes, Ok(names)) && sel == Sort(names)
  }

  /** From the selection on: what is rolled out and written, and where a refusal cut it short. */
  ghost predicate RolledOut(cfg: Config, w: World, v: World, sel: seq<string>, r: Report) {
    && v.nodes == w.nodes && !r.SelectionFailed? && r.sel == sel
    && match r
       case RolloutRefused(_) => v.p == w.p && RolloutStep(cfg, w.p, sel, w.sets, v.sets, Refused)
       case StatusRefused(_, out) => v.p == w.p && out != Refused && RolloutStep(cfg, w.p, sel, w.sets, v.sets, out)
       case Settled(_, out, requeue) =>
         && out != Refused && RolloutStep(cfg, w.p, sel, w.sets, v.sets, out)
         && v.p == w.p.(status := StatusFor(w.p, sel, v.sets))
         && requeue == !ConditionTrue(v.p.status.conditions, READY)
  }

  ghost predicate ReconcileStep(cfg: Config, w: World, v: World, r: Report) {
    match r
    case SelectionFailed(e) => v == w && (e == ApiFault || TargetOutcome(w.p, w.nodes, Err(e)))
    case _ => Picks(w, r.sel) && RolledOut(cfg, w, v, r.sel, r)
  }

  /** Which report a credit of answered requests leads to: one list of nodes, then those of the
      rollout, then a list and a write for the status. */
  predicate RefusedOnlyIfNeeded(cfg: Config, w: World, credit: nat, r: Report) {
    match r
    case SelectionFailed(e) => e == ApiFault ==> credit == 0 && !w.p.spec.selector.BadSelector?
    case RolloutRefused(sel) => 1 <= credit < 1 + Requests(cfg, w.p, sel, w.sets)
    case StatusRefused(sel, _) => 1 + Requests(cfg, w.p, sel, w.sets) <= credit < 3 + Requests(cfg, w.p, sel, w.sets)
    case Settled(sel, _, _) => credit >= 3 + Requests(cfg, w.p, sel, w.sets)
  }

  // ---- what is selected --------------------------------------------------------------------

  lemma TargetsAreDistinct(p: ImagePrefetch, nodes: seq<Node>, names: seq<string>)
    requires UniqueNames(nodes) && Distinct(p.status.selectedNodes) && TargetOutcome(p, nodes, Ok(names))
    ensures Distinct(names)
  {
    var ready := ReadyTargets(p.spec.selector, nodes);
    ReadyTargetsMembers(p.spec.selector, nodes);
    if !p.spec.allNodes && NeedsSelection(p, ready) {
      var sel :| IsSelection(p.status.selectedNodes, p.spec.replicas, ready, sel) && names == NodeNames(sel);
      SelectionShape(p.status.selectedNodes, p.spec.replicas, ready, sel);
    }
  }

  ghost predicate IsTarget(p: ImagePrefetch, nodes: seq<Node>, name: string) {
    exists n :: n in nodes && n.name == name && IsNodeReady(n) && Selects(p.spec.selector, n)
  }

  /** Every list of targets names distinct nodes that are ready and match the selector at that time,
      and in replica mode, when chosen anew, exactly Replicas of them. */
  lemma TargetsAreSound(p: ImagePrefetch, nodes: seq<Node>, names: seq<string>)
    requires UniqueNames(nodes) && Distinct(p.status.selectedNodes) && TargetOutcome(p, nodes, Ok(names))
    ensures Distinct(names) && forall i :: 0 <= i < |names| ==> IsTarget(p, nodes, names[i])
    ensures !p.spec.allNodes ==> p.spec.replicas > 0 && (names == p.status.selectedNodes || |names| == p.spec.replicas)
    ensures !p.spec.allNodes && (p.generation != p.status.observedGeneration || p.status.selectedNodes == []) ==>
              |names| == p.spec.replicas
  {
    var ready := ReadyTargets(p.spec.selector, nodes);
    ReadyTargetsMembers(p.spec.selector, nodes);
    TargetsAreDistinct(p, nodes, names);
    if !p.spec.allNodes && NeedsSelection(p, ready) {
      var sel :| IsSelection(p.status.selectedNodes, p.spec.replicas, ready, sel) && names == NodeNames(sel);
      SelectionShape(p.status.selectedNodes, p.spec.replicas, ready, sel);
      forall i | 0 <= i < |names| ensures IsTarget(p, nodes, names[i]) {
        assert sel[i] in ready;
      }
    } else {
      forall i | 0 <= i < |names| ensures IsTarget(p, nodes, names[i]) {
        assert names[i] in NodeNames(ready);
        var j :| 0 <= j < |ready| && NodeNames(ready)[j] == names[i];
        assert ready[j] in ready;
      }
    }
  }

  ghost function EligibleNodes(p: ImagePrefetch, nodes: seq<Node>): set<Node> {
    set n | n in nodes && Eligible(p, n)
  }

  /** The recorded nodes can stay: there are some, for the current spec, and all are still eligible. */
  ghost predicate CanStay(p: ImagePrefetch, nodes: seq<Node>) {
    && p.status.selectedNodes != [] && p.generation == p.status.observedGeneration
    && forall name :: name in p.status.selectedNodes ==> exists n :: n in EligibleNodes(p, nodes) && n.name == name
  }

  lemma TargetsAreEligible(p: ImagePrefetch, nodes: seq<Node>)
    requires UniqueNames(nodes) && !p.spec.selector.BadSelector?
    ensures var ready := ReadyTargets(p.spec.selector, nodes);
            && |ready| == |EligibleNodes(p, nodes)|
            && forall name :: name in NodeNames(ready) <==> exists n :: n in EligibleNodes(p, nodes) && n.name == name
  {
    var ready := ReadyTargets(p.spec.selector, nodes);
    ReadyTargetsMembers(p.spec.selector, nodes);
    forall n: Node ensures n in ready <==> n in EligibleNodes(p, nodes) { ReadyIsDecided(n.conditions); }
    assert ToSet(ready) == EligibleNodes(p, nodes);
    DistinctCard(ready);
    forall n | n in ready ensures n.name in NodeNames(ready) { NameListed(ready, n); }
    forall name | name in NodeNames(ready) ensures exists n :: n in EligibleNodes(p, nodes) && n.name == name {
      var i :| 0 <= i < |ready| && NodeNames(ready)[i] == name;
      assert ready[i] in ready;
    }
  }

  lemma StayIsNoNeed(p: ImagePrefetch, nodes: seq<Node>)
    requires UniqueNames(nodes) && !p.spec.selector.BadSelector?
    ensures NeedsSelection(p, ReadyTargets(p.spec.selector, nodes)) <==> !CanStay(p, nodes)
  {
    var recorded, ready := p.status.selectedNodes, NodeNames(ReadyTargets(p.spec.selector, nodes));
    TargetsAreEligible(p, nodes);
    assert (forall name :: name in recorded ==> exists n :: n in EligibleNodes(p, nodes) && n.name == name) <==>
           (forall name :: name in recorded ==> name in ready);
    assert (forall name :: name in recorded ==> name in ready) <==>
           (forall i :: 0 <= i < |recorded| ==> recorded[i] in ready);
  }

  /** The answer for every ImagePrefetch and node list, on their fields. All-nodes mode names exactly
      the eligible nodes. Replica mode keeps the recorded nodes if they can stay, and otherwise chooses
      Replicas nodes if and only if that many are eligible. */
  lemma OutcomeOnFields(p: ImagePrefetch, nodes: seq<Node>, res: Result<seq<string>, SelectError>)
    requires UniqueNames(nodes) && TargetOutcome(p, nodes, res)
    ensures p.spec.selector.BadSelector? ==> res == Err(SelectorUnparsable)
    ensures !p.spec.selector.BadSelector? && p.spec.allNodes ==>
              res.Ok? && forall name :: name in res.value <==>
                    exists n :: n in EligibleNodes(p, nodes) && n.name == name
    ensures !p.spec.selector.BadSelector? && !p.spec.allNodes ==>
              if p.spec.replicas <= 0 then res == Err(NoTarget)
              else if CanStay(p, nodes) then res == Ok(p.status.selectedNodes)
              else if |EligibleNodes(p, nodes)| < p.spec.replicas then res == Err(NotEnoughNodes)
              else res.Ok? && |res.value| == p.spec.replicas
  {
    if !p.spec.selector.BadSelector? {
      TargetsAreEligible(p, nodes);
      StayIsNoNeed(p, nodes);
    }
  }

  /** When a reconciliation whose node list is answered gets past the selection, and with which nodes. */
  lemma ReconcileSelects(cfg: Config, w: World, v: World, r: Report, credit: nat)
    requires UniqueNames(w.nodes) && Distinct(w.p.status.selectedNodes) && credit > 0
    requires ReconcileStep(cfg, w, v, r) && RefusedOnlyIfNeeded(cfg, w, credit, r)
    ensures r.SelectionFailed? <==>
              || w.p.spec.selector.BadSelector?
              || (!w.p.spec.allNodes && w.p.spec.replicas <= 0)
              || (!w.p.spec.allNodes && !CanStay(w.p, w.nodes) && |EligibleNodes(w.p, w.nodes)| < w.p.spec.replicas)
    ensures !r.SelectionFailed? && w.p.spec.allNodes ==>
              forall name :: name in r.sel <==> exists n :: n in EligibleNodes(w.p, w.nodes) && n.name == name
    ensures !r.SelectionFailed? && !w.p.spec.allNodes ==>
              if CanStay(w.p, w.nodes) then ToSet(r.sel) == ToSet(w.p.status.selectedNodes)
                  else |r.sel| == w.p.spec.replicas
  {
    if r.SelectionFailed? {
      OutcomeOnFields(w.p, w.nodes, Err(r.error));
    } else {
      var names :| TargetOutcome(w.p, w.nodes, Ok(names)) && r.sel == Sort(names);
      OutcomeOnFields(w.p, w.nodes, Ok(names));
      TargetsAreDistinct(w.p, w.nodes, names);
      DistinctMultiset(names, r.sel);
      forall name ensures name in r.sel <==> name in names {
        assert name in ToSet(r.sel) <==> name in r.sel;
        assert name in ToSet(names) <==> name in names;
      }
    }
  }

  // ---- consistency of the store ------------------------------------------------------------

  /** What a store holds when its set statuses come from the NodeImageSet controllers: a status never
      runs ahead of the spec it describes, one that is up to date reports on every image, and none is
      written for a set marked for deletion, whose generation therefore stays unobserved. */
  predicate Consistent(o: NodeImageSet) {
    && o.generation >= 1
    && o.status.observedGeneration <= o.generation
    && (o.deleting ==> o.status.observedGeneration < o.generation)
    && (o.status.observedGeneration == o.generation && o.status.conditions != map[] ==>
        |o.status.reports| == |o.spec.images|)
    && Honest(o)
  }

  predicate ConsistentStore(sets: OwnedSets) {
    WellKeyed(sets) && forall n :: n in sets ==> Consistent(sets[n])
  }

  lemma RewriteKeepsConsistent(pre: OwnedSets, spec: SetSpec)
    requires spec.nodeName in pre ==> Consistent(pre[spec.nodeName])
    ensures Consistent(Upsert(pre, spec)[spec.nodeName])
  {
  }

  lemma WriteKeepsConsistent(cfg: Config, p: ImagePrefetch, sel: seq<string>, pre: OwnedSets, post: OwnedSets, k: nat)
    requires ConsistentStore(pre) && Wrote(cfg, p, sel, pre, post, k)
    ensures forall n :: n in post ==> Consistent(post[n])
  {
    forall n | n in post ensures Consistent(post[n]) {
      if n in sel {
        var i :| 0 <= i < |sel| && sel[i] == n;
        RewriteKeepsConsistent(pre, Desired(cfg, p, sel, i));
      }
    }
  }

  lemma StepKeepsConsistent(cfg: Config, p: ImagePrefetch, sel: seq<string>, pre: OwnedSets, post: OwnedSets,
                            out: Outcome)
    requires Distinct(sel) && ConsistentStore(pre) && RolloutStep(cfg, p, sel, pre, post, out)
    ensures ConsistentStore(post)
  {
    StepKeepsKeys(cfg, p, sel, pre, post, out);
    var k := StepEffect(cfg, p, sel, pre, post, out);
    WriteKeepsConsistent(cfg, p, sel, pre, post, k);
  }

  // ---- what the gate does not see ------------------------------------------------------------

  /** A set rewritten to a new spec is not counted until its controller has seen that spec, yet the
      gate takes it for ready exactly when its old status was available and reports as many images
      as the new spec names. */
  lemma GateTrustsOldStatus(o: NodeImageSet, spec: SetSpec)
    requires Consistent(o) && o.spec != spec
    ensures !IsCounted(Rewrite(o, spec), spec.prefetchGeneration)
    ensures GateReady(Rewrite(o, spec), spec.prefetchGeneration) <==>
              ConditionTrue(o.status.conditions, IMAGE_AVAILABLE) && |spec.images| == |o.status.reports|
  {
  }

  /** All selected nodes have a set whose status is available and reports as many images as the
      ImagePrefetch now names, and sets of the current generation have its images. */
  ghost predicate SameImageCount(p: ImagePrefetch, sel: seq<string>, sets: OwnedSets) {
    forall n :: n in sel ==>
      && n in sets && ConditionTrue(sets[n].status.conditions, IMAGE_AVAILABLE)
          && |sets[n].status.reports| == |p.spec.images|
      && (sets[n].spec.prefetchGeneration == p.generation ==> sets[n].spec.images == p.spec.images)
  }

  /** So after an edit that keeps the number of images, over sets that were all available, every step
      settles at once: what it wrote is ready for the gate with no status written since. */
  lemma EditKeepingImageCount(cfg: Config, p: ImagePrefetch, sel: seq<string>, pre: OwnedSets, post: OwnedSets,
                              out: Outcome)
    requires Distinct(sel) && RolloutStep(cfg, p, sel, pre, post, out) && SameImageCount(p, sel, pre)
    ensures Settles(p, sel, post, post) && SameImageCount(p, sel, post)
    ensures forall n :: n in sel ==> post[n].status == pre[n].status
  {
    var k := StepEffect(cfg, p, sel, pre, post, out);
    forall i | 0 <= i < |sel|
      ensures sel[i] in post && post[sel[i]].status == pre[sel[i]].status
      ensures post[sel[i]].spec.prefetchGeneration == p.generation ==> post[sel[i]].spec.images == p.spec.images
    {
      if i < k { assert post[sel[i]] == Rewrite(pre[sel[i]], Desired(cfg, p, sel, i)); }
    }
  }

  /** Unrefused steps one after the other, with nothing happening in between. */
  ghost predicate BackToBack(cfg: Config, p: ImagePrefetch, sel: seq<string>, stores: seq<OwnedSets>,
                             outs: seq<Outcome>) {
    && |stores| == |outs| + 1
    && forall j: nat :: j < |outs| ==> NextInLine(cfg, p, sel, stores, outs, j)
  }

  ghost predicate NextInLine(cfg: Config, p: ImagePrefetch, sel: seq<string>, stores: seq<OwnedSets>,
                             outs: seq<Outcome>, j: nat)
    requires j < |outs| && |stores| == |outs| + 1
  {
    RolloutStep(cfg, p, sel, stores[j], stores[j + 1], outs[j]) && outs[j] != Refused
  }

  lemma {:induction false} StatusesStay(cfg: Config, p: ImagePrefetch, sel: seq<string>, stores: seq<OwnedSets>,
                                        outs: seq<Outcome>, j: nat)
    requires Distinct(sel) && BackToBack(cfg, p, sel, stores, outs) && SameImageCount(p, sel, stores[0]) && j < |stores|
    ensures SameImageCount(p, sel, stores[j]) && (j > 0 ==> Settles(p, sel, stores[j], stores[j]))
    ensures forall n :: n in sel ==> stores[j][n].status == stores[0][n].status
  {
    if j > 0 {
      StatusesStay(cfg, p, sel, stores, outs, j - 1);
      assert NextInLine(cfg, p, sel, stores, outs, j - 1);
      EditKeepingImageCount(cfg, p, sel, stores[j - 1], stores[j], outs[j - 1]);
    }
  }

  /** The whole rollout of such an edit runs through without waiting: ceil(n / c) steps back to back
      complete it, while not one status has been written, so without any of the new images. */
  lemma EditRunsThrough(cfg: Config, p: ImagePrefetch, sel: seq<string>, stores: seq<OwnedSets>, outs: seq<Outcome>)
    requires Distinct(sel) && BackToBack(cfg, p, sel, stores, outs) && SameImageCount(p, sel, stores[0])
    requires cfg.maxConcurrent >= 1 && |outs| >= 1 && |outs| * cfg.maxConcurrent >= |sel|
    ensures outs[|outs| - 1] == Completed && Converged(cfg, p, sel, stores[|outs|])
    ensures forall n :: n in sel ==> stores[|outs|][n].status == stores[0][n].status
  {
    var starts, ends := stores[..|outs|], stores[1..];
    forall j: nat | j < |outs| ensures RoundAt(cfg, p, sel, starts, ends, outs, j) {
      assert NextInLine(cfg, p, sel, stores, outs, j);
      StatusesStay(cfg, p, sel, stores, outs, j);
    }
    ConvergesInTime(cfg, p, sel, starts, ends, outs);
    StatusesStay(cfg, p, sel, stores, outs, |outs|);
  }

  lemma StepExists(cfg: Config, p: ImagePrefetch, sel: seq<string>, pre: OwnedSets)
    returns (post: OwnedSets, out: Outcome)
    ensures out != Refused && RolloutStep(cfg, p, sel, pre, post, out)
  {
    var m := Batch(cfg, p, sel, pre);
    var mid := ApplyFirst(cfg, p, sel, m, pre);
    if GateOf(cfg, p, sel, pre) < |sel| {
      post, out := mid, Stopped;
    } else {
      post, out := DeleteAll(mid, Leftover(mid, sel)), Completed;
    }
  }

  lemma {:induction false} RunExists(cfg: Config, p: ImagePrefetch, sel: seq<string>, start: OwnedSets, steps: nat)
    returns (stores: seq<OwnedSets>, outs: seq<Outcome>)
    ensures |outs| == steps && BackToBack(cfg, p, sel, stores, outs) && stores[0] == start
  {
    if steps == 0 {
      stores, outs := [start], [];
    } else {
      var before, ends := RunExists(cfg, p, sel, start, steps - 1);
      var post, out := StepExists(cfg, p, sel, before[steps - 1]);
      stores, outs := before + [post], ends + [out];
      forall j: nat | j < |outs| ensures NextInLine(cfg, p, sel, stores, outs, j) {
        if j < steps - 1 { assert NextInLine(cfg, p, sel, before, ends, j); }
      }
    }
  }

  function EditedSet(name: string): NodeImageSet {
    NodeImageSet(SetSpec(["old"], Default, name, [], 1), 1,
                 SetStatus(1, map[IMAGE_AVAILABLE := true, DOWNLOAD_SUCCEEDED := true], 1, 1, 0,
                           [ImageReport("old", Downloaded)]),
                 {}, false)
  }

  /** Such a run exists for any nodes: their sets serve the image "old", the edit asks for "new", and
      with batches of one node n steps write every set while all statuses still tell of "old". */
  lemma EditInput(sel: seq<string>) returns (p: ImagePrefetch, stores: seq<OwnedSets>, outs: seq<Outcome>)
    requires Distinct(sel) && sel != []
    ensures BackToBack(Config(1, 1), p, sel, stores, outs)
    ensures ConsistentStore(stores[0]) && SameImageCount(p, sel, stores[0])
    ensures |outs| == |sel| && Converged(Config(1, 1), p, sel, stores[|outs|])
    ensures p.spec.images == ["new"]
    ensures forall n :: n in sel ==> stores[|outs|][n].spec.images == ["new"]
    ensures forall n :: n in sel ==> stores[|outs|][n].status.reports == [ImageReport("old", Downloaded)]
  {
    p := ImagePrefetch("p", PrefetchSpec(["new"], EmptySelector, true, 0, []), 2,
                       PrefetchStatus(1, map[], 0, 0, 0, 0, []));
    var start: OwnedSets := map n | n in sel :: EditedSet(n);
    assert IMAGE_AVAILABLE[5] != DOWNLOAD_SUCCEEDED[5];
    stores, outs := RunExists(Config(1, 1), p, sel, start, |sel|);
    EditRunsThrough(Config(1, 1), p, sel, stores, outs);
    forall n | n in sel ensures stores[|outs|][n].spec.images == ["new"] {
      var i :| 0 <= i < |sel| && sel[i] == n;
      assert stores[|outs|][sel[i]].spec == Desired(Config(1, 1), p, sel, i);
    }
  }

  // ---- Ready means what it says ------------------------------------------------------------

  /** A set that serves after a step was ready for the gate before it. */
  lemma ServingWasReady(cfg: Config, p: ImagePrefetch, sel: seq<string>, pre: OwnedSets, post: OwnedSets)
    requires Distinct(sel) && ConsistentStore(pre) && RolloutStep(cfg, p, sel, pre, post, Stopped)
    ensures Where(post, Serving(p.generation)) <= ReadySets(pre, p.generation)
  {
    var k := StepEffect(cfg, p, sel, pre, post, Stopped);
    forall n | n in Where(post, Serving(p.generation)) ensures n in ReadySets(pre, p.generation) {
      if n in sel {
        var i :| 0 <= i < |sel| && sel[i] == n;
        if i < k { assert post[n] == Upsert(pre, Desired(cfg, p, sel, i))[n]; }
      }
      assert n in pre && post[n] == pre[n];
      assert Consistent(pre[n]);
    }
  }

  /** A rollout that stopped at its batch limit never reports Ready. */
  lemma StoppedIsNotReady(cfg: Config, p: ImagePrefetch, sel: seq<string>, pre: OwnedSets, post: OwnedSets)
    requires Distinct(sel) && ConsistentStore(pre)
    requires RolloutStep(cfg, p, sel, pre, post, Stopped)
    ensures !StatusFor(p, sel, post).conditions[READY]
  {
    ServingWasReady(cfg, p, sel, pre, post);
    SubsetCard(Where(post, Serving(p.generation)), ReadySets(pre, p.generation));
  }

  /** A set of the store after a completed step that belongs to no selected node is marked, so it is
      not counted. */
  lemma CountedAreSelected(cfg: Config, p: ImagePrefetch, sel: seq<string>, pre: OwnedSets, post: OwnedSets)
    requires Distinct(sel) && ConsistentStore(pre) && RolloutStep(cfg, p, sel, pre, post, Completed)
    ensures Where(post, Counted(p.generation)) <= ToSet(sel)
  {
    StepKeepsConsistent(cfg, p, sel, pre, post, Completed);
    var k := StepEffect(cfg, p, sel, pre, post, Completed);
    forall n | n in Where(post, Counted(p.generation)) ensures n in sel { assert Consistent(post[n]); }
  }

  /** Ready is written if and only if the rollout completed and every selected node is served. */
  lemma ReadyIffServed(cfg: Config, p: ImagePrefetch, sel: seq<string>, pre: OwnedSets, post: OwnedSets, out: Outcome)
    requires Distinct(sel) && ConsistentStore(pre) && RolloutStep(cfg, p, sel, pre, post, out) && out != Refused
    ensures StatusFor(p, sel, post).conditions[READY] <==>
              out == Completed && ToSet(sel) <= Where(post, Serving(p.generation))
  {
    if out == Stopped {
      StoppedIsNotReady(cfg, p, sel, pre, post);
    } else {
      var serving := Where(post, Serving(p.generation));
      CountedAreSelected(cfg, p, sel, pre, post);
      ReadyIsBalance(p, sel, post);
      assert serving - ToSet(sel) == {};
      assert ToSet(sel) - serving == {} <==> ToSet(sel) <= serving;
    }
  }

  lemma ReadyMeansDesired(cfg: Config, p: ImagePrefetch, sel: seq<string>, pre: OwnedSets, post: OwnedSets)
    requires Distinct(sel) && RolloutStep(cfg, p, sel, pre, post, Completed)
    ensures forall i :: 0 <= i < |sel| ==> sel[i] in post && post[sel[i]].spec == Desired(cfg, p, sel, i)
  {
    var k := StepEffect(cfg, p, sel, pre, post, Completed);
    forall i | 0 <= i < |sel| ensures sel[i] in post && post[sel[i]].spec == Desired(cfg, p, sel, i) { }
  }

  lemma ReadyMeansNoFailure(cfg: Config, p: ImagePrefetch, sel: seq<string>, pre: OwnedSets, post: OwnedSets)
    requires Distinct(sel) && ConsistentStore(pre) && RolloutStep(cfg, p, sel, pre, post, Completed)
    requires StatusFor(p, sel, post).conditions[READY]
    ensures StatusFor(p, sel, post).failedNodes == 0
  {
    StepKeepsConsistent(cfg, p, sel, pre, post, Completed);
    CountedAreSelected(cfg, p, sel, pre, post);
    DistinctCard(sel);
    SubsetCard(Where(post, Counted(p.generation)), ToSet(sel));
    ReadyBoundsFailures(sel, post, p.generation);
  }

  /** The selected nodes are targets, and each has a set with the desired spec that serves it. */
  ghost predicate AllServed(cfg: Config, w: World, sets: OwnedSets, sel: seq<string>) {
    forall j :: 0 <= j < |sel| ==>
      && IsTarget(w.p, w.nodes, sel[j]) && sel[j] in sets
      && sets[sel[j]].spec == Desired(cfg, w.p, sel, j)
      && sel[j] in Where(sets, Serving(w.p.generation))
  }

  lemma AllAreServed(cfg: Config, w: World, sets: OwnedSets, sel: seq<string>)
    requires UniqueNames(w.nodes) && Distinct(w.p.status.selectedNodes) && Picks(w, sel)
    requires forall i :: 0 <= i < |sel| ==> sel[i] in sets && sets[sel[i]].spec == Desired(cfg, w.p, sel, i)
    requires ToSet(sel) <= Where(sets, Serving(w.p.generation))
    ensures AllServed(cfg, w, sets, sel)
  {
    PickedShape(w, sel);
    forall j | 0 <= j < |sel| ensures sel[j] in Where(sets, Serving(w.p.generation)) {
      assert sel[j] in ToSet(sel);
    }
  }

  /** Being served, on the fields of the stored sets: every selected node has a set of the current
      generation whose latest generation is observed and which says that its images are available. */
  lemma ServedOnFields(sel: seq<string>, sets: OwnedSets, generation: int)
    ensures ToSet(sel) <= Where(sets, Serving(generation)) <==>
              forall i :: 0 <= i < |sel| ==>
                && sel[i] in sets && sets[sel[i]].spec.prefetchGeneration == generation
                && sets[sel[i]].status.observedGeneration == sets[sel[i]].generation
                && IMAGE_AVAILABLE in sets[sel[i]].status.conditions && sets[sel[i]].status.conditions[IMAGE_AVAILABLE]
  {
    forall i | 0 <= i < |sel|
      ensures sel[i] in Where(sets, Serving(generation)) <==>
                && sel[i] in sets && sets[sel[i]].spec.prefetchGeneration == generation
                && sets[sel[i]].status.observedGeneration == sets[sel[i]].generation
                && IMAGE_AVAILABLE in sets[sel[i]].status.conditions && sets[sel[i]].status.conditions[IMAGE_AVAILABLE]
    {
    }
    if ToSet(sel) <= Where(sets, Serving(generation)) {
      forall i | 0 <= i < |sel| ensures sel[i] in Where(sets, Serving(generation)) { assert sel[i] in ToSet(sel); }
    }
  }

  /** What a reconciliation writes: Ready if and only if its rollout completed and every selected node
      has an observed, available set of the current generation, and it looks again later if and only if
      not. When Ready, every selected node is a target with the desired set, and no failure is reported. */
  lemma {:induction false} ReadyIsSound(cfg: Config, w: World, v: World, r: Report)
    requires UniqueNames(w.nodes) && Distinct(w.p.status.selectedNodes) && ConsistentStore(w.sets)
    requires ReconcileStep(cfg, w, v, r) && r.Settled?
    ensures READY in v.p.status.conditions
    ensures v.p.status.conditions[READY] <==>
              r.out == Completed &&
              forall i :: 0 <= i < |r.sel| ==>
                && r.sel[i] in v.sets && v.sets[r.sel[i]].spec.prefetchGeneration == w.p.generation
                && v.sets[r.sel[i]].status.observedGeneration == v.sets[r.sel[i]].generation
                && IMAGE_AVAILABLE in v.sets[r.sel[i]].status.conditions
                && v.sets[r.sel[i]].status.conditions[IMAGE_AVAILABLE]
    ensures ConditionTrue(v.p.status.conditions, READY) <==> !r.requeue
    ensures ConditionTrue(v.p.status.conditions, READY) ==>
              AllServed(cfg, w, v.sets, r.sel) && v.p.status.failedNodes == 0
  {
    PickedShape(w, r.sel);
    ReadyIffServed(cfg, w.p, r.sel, w.sets, v.sets, r.out);
    ServedOnFields(r.sel, v.sets, w.p.generation);
    if ConditionTrue(v.p.status.conditions, READY) {
      ReadyMeansDesired(cfg, w.p, r.sel, w.sets, v.sets);
      ReadyMeansNoFailure(cfg, w.p, r.sel, w.sets, v.sets);
      AllAreServed(cfg, w, v.sets, r.sel);
    }
  }

  /** Everything a settled reconciliation has written, on the fields of the sets it left. */
  lemma SettledStatus(cfg: Config, w: World, v: World, r: Report)
    requires ReconcileStep(cfg, w, v, r) && r.Settled?
    ensures var counted := ObservedSets(v.sets, w.p.generation);
            var available := ObservedWith(v.sets, w.p.generation, IMAGE_AVAILABLE);
            var succeeded := ObservedWith(v.sets, w.p.generation, DOWNLOAD_SUCCEEDED);
            var status := v.p.status;
            && v.p.spec == w.p.spec && v.p.generation == w.p.generation
            && status.observedGeneration == w.p.generation && status.selectedNodes == r.sel
            && status.desiredNodes == |r.sel| && status.pulledNodes == |available|
            && status.pullingNodes == |counted - available| && status.failedNodes == |counted - succeeded|
            && status.conditions.Keys == {SETS_CREATED, READY, NO_PULL_FAILED}
            && (status.conditions[SETS_CREATED] <==> |v.sets| == |r.sel|)
            && (status.conditions[READY] <==> |available| == |r.sel|)
            && (status.conditions[NO_PULL_FAILED] <==> counted <= succeeded)
  {
    StatusOnFields(w.p, r.sel, v.sets);
  }

  lemma SortedTargets(w: World, names: seq<string>, sel: seq<string>)
    requires Distinct(names) && sel == Sort(names)
    requires forall i :: 0 <= i < |names| ==> IsTarget(w.p, w.nodes, names[i])
    ensures Distinct(sel) && Sorted(sel) && |sel| == |names|
    ensures forall i :: 0 <= i < |sel| ==> IsTarget(w.p, w.nodes, sel[i])
  {
    DistinctMultiset(names, sel);
    forall i | 0 <= i < |sel| ensures IsTarget(w.p, w.nodes, sel[i]) {
      assert sel[i] in ToSet(sel);
      assert sel[i] in ToSet(names);
      var j :| 0 <= j < |names| && names[j] == sel[i];
    }
  }

  /** The list a reconciliation works on: sorted, duplicate-free, ready matching nodes only. */
  lemma {:induction false} PickedShape(w: World, sel: seq<string>)
    requires UniqueNames(w.nodes) && Distinct(w.p.status.selectedNodes) && Picks(w, sel)
    ensures Distinct(sel) && Sorted(sel)
    ensures forall i :: 0 <= i < |sel| ==> IsTarget(w.p, w.nodes, sel[i])
    ensures !w.p.spec.allNodes ==>
              w.p.spec.replicas > 0 && (|sel| == |w.p.status.selectedNodes| || |sel| == w.p.spec.replicas)
    ensures !w.p.spec.allNodes
            && (w.p.generation != w.p.status.observedGeneration || w.p.status.selectedNodes == []) ==>
              |sel| == w.p.spec.replicas
  {
    var names :| TargetOutcome(w.p, w.nodes, Ok(names)) && sel == Sort(names);
    TargetsAreSound(w.p, w.nodes, names);
    SortedTargets(w, names, sel);
  }

  /** A whole reconciliation reselects stably: with all recorded nodes still ready targets it picks the
      same sorted list while Replicas stays, and part or more of it when Replicas is changed. */
  lemma ReconciliationIsStable(w: World, sel: seq<string>)
    requires UniqueNames(w.nodes) && Picks(w, sel) && !w.p.spec.allNodes
    requires Distinct(w.p.status.selectedNodes) && Sorted(w.p.status.selectedNodes)
    requires forall i :: 0 <= i < |w.p.status.selectedNodes| ==>
               w.p.status.selectedNodes[i] in NodeNames(ReadyTargets(w.p.spec.selector, w.nodes))
    ensures w.p.spec.replicas == |w.p.status.selectedNodes| ==> sel == w.p.status.selectedNodes
    ensures w.p.spec.replicas <= |w.p.status.selectedNodes| ==> ToSet(sel) <= ToSet(w.p.status.selectedNodes)
    ensures w.p.spec.replicas >= |w.p.status.selectedNodes| ==> ToSet(w.p.status.selectedNodes) <= ToSet(sel)
  {
    var prev, ready := w.p.status.selectedNodes, ReadyTargets(w.p.spec.selector, w.nodes);
    var names :| TargetOutcome(w.p, w.nodes, Ok(names)) && sel == Sort(names);
    TargetsAreDistinct(w.p, w.nodes, names);
    DistinctMultiset(names, sel);
    SortedFixed(prev);
    if NeedsSelection(w.p, ready) {
      var chosen: seq<Node> :| IsSelection(prev, w.p.spec.replicas, ready, chosen) && names == NodeNames(chosen);
      ReselectionIsStable(prev, w.p.spec.replicas, ready, chosen);
      NamesStable(prev, names, w.p.spec.replicas);
    }
  }

  lemma NamesStable(prev: seq<string>, names: seq<string>, replicas: int)
    requires 0 <= replicas <= |prev| ==> names == prev[..replicas]
    requires replicas >= |prev| ==> prev <= names
    requires replicas >= 0
    ensures replicas <= |prev| ==> ToSet(names) <= ToSet(prev)
    ensures replicas >= |prev| ==> ToSet(prev) <= ToSet(names)
    ensures replicas == |prev| ==> names == prev
  {
  }

  /** After a completed rollout the sets count as created exactly when no deleted one is still held. */
  lemma CreatedAfterCompletion(cfg: Config, p: ImagePrefetch, sel: seq<string>, pre: OwnedSets, post: OwnedSets)
    requires Distinct(sel) && RolloutStep(cfg, p, sel, pre, post, Completed)
    ensures StatusFor(p, sel, post).conditions[SETS_CREATED] <==> forall n :: n in post ==> n in sel
  {
    CompletedHasAll(cfg, p, sel, pre, post);
    SameSize(sel, post.Keys);
    assert |post| == |post.Keys|;
  }

  lemma CompletedHasAll(cfg: Config, p: ImagePrefetch, sel: seq<string>, pre: OwnedSets, post: OwnedSets)
    requires Distinct(sel) && RolloutStep(cfg, p, sel, pre, post, Completed)
    ensures ToSet(sel) <= post.Keys
  {
    var k := StepEffect(cfg, p, sel, pre, post, Completed);
    forall n | n in ToSet(sel) ensures n in post.Keys { var i :| 0 <= i < |sel| && sel[i] == n; }
  }

  lemma SameSize(sel: seq<string>, names: set<string>)
    requires Distinct(sel) && ToSet(sel) <= names
    ensures |names| == |sel| <==> names <= ToSet(sel)
  {
    DistinctCard(sel);
    SubsetCard(ToSet(sel), names);
    if names <= ToSet(sel) { assert names == ToSet(sel); }
  }

  // ---- runs of a changing cluster ----------------------------------------------------------

  datatype Change =
    | SpecChanged(spec: PrefetchSpec)
    | NodesChanged(nodes: seq<Node>)
    | ControllerWrote(node: string, read: NodeImageSet, status: SetStatus, present: set<string>)
    | HoldChanged(node: string, finalizers: set<string>)
    | SetFinalized(node: string)
    | SetDeleted(node: string)
    | Reconciliation(report: Report)

  /** A status a NodeImageSet controller may write after reading the set as `read` and seeing the
      images `present` on its node. */
  predicate WrittenFor(read: NodeImageSet, status: SetStatus, present: set<string>) {
    && status.observedGeneration == read.generation
    && |status.reports| == |read.spec.images|
    && Honest(read.(status := status))
    && (ConditionTrue(status.conditions, IMAGE_AVAILABLE) ==> ToSet(read.spec.images) <= present)
  }

  /** The controller read an earlier version of the set, or this very one, and it was not marked for
      deletion: for a marked set no status is written. */
  predicate EarlierVersion(read: NodeImageSet, now: NodeImageSet) {
    && !read.deleting && read.generation <= now.generation
    && (read.generation == now.generation ==> read.spec == now.spec && !now.deleting)
  }

  ghost predicate WorldNext(cfg: Config, w: World, c: Change, v: World) {
    match c
    case SpecChanged(spec) => v == w.(p := w.p.(spec := spec, generation := w.p.generation + 1))
    case NodesChanged(nodes) => UniqueNames(nodes) && v == w.(nodes := nodes)
    case ControllerWrote(n, read, status, present) =>
      && n in w.sets && EarlierVersion(read, w.sets[n]) && WrittenFor(read, status, present)
      && v == w.(sets := w.sets[n := w.sets[n].(status := status)])
    case HoldChanged(n, f) => n in w.sets && v == w.(sets := w.sets[n := w.sets[n].(finalizers := f)])
    case SetFinalized(n) => n in w.sets && w.sets[n].deleting && v == w.(sets := w.sets - {n})
    case SetDeleted(n) => v == w.(sets := DeleteAll(w.sets, {n}))
    case Reconciliation(r) => ReconcileStep(cfg, w, v, r)
  }

  ghost predicate WorldInv(w: World) {
    && UniqueNames(w.nodes)
    && ConsistentStore(w.sets)
    && w.p.status.observedGeneration <= w.p.generation
    && Distinct(w.p.status.selectedNodes) && Sorted(w.p.status.selectedNodes)
    && SelectionSettled(w.p)
  }

  /** Once the spec is observed in replica mode, exactly Replicas nodes are selected. */
  predicate SelectionSettled(p: ImagePrefetch) {
    p.status.observedGeneration == p.generation && !p.spec.allNodes ==> |p.status.selectedNodes| == p.spec.replicas
  }

  ghost predicate InitialWorld(w: World) {
    && UniqueNames(w.nodes) && w.sets == map[]
    && w.p.generation >= 1 && w.p.status == PrefetchStatus(0, map[], 0, 0, 0, 0, [])
  }

  lemma WorldNextKeepsInv(cfg: Config, w: World, c: Change, v: World)
    requires WorldInv(w) && WorldNext(cfg, w, c, v)
    ensures WorldInv(v)
  {
    if c.Reconciliation? {
      match c.report
      case SelectionFailed(_) =>
      case RolloutRefused(sel) =>
        PickedShape(w, sel);
        StepKeepsConsistent(cfg, w.p, sel, w.sets, v.sets, Refused);
      case StatusRefused(sel, out) =>
        PickedShape(w, sel);
        StepKeepsConsistent(cfg, w.p, sel, w.sets, v.sets, out);
      case Settled(sel, out, _) =>
        PickedShape(w, sel);
        StepKeepsConsistent(cfg, w.p, sel, w.sets, v.sets, out);
    }
  }

  lemma InitialInv(w: World)
    requires InitialWorld(w)
    ensures WorldInv(w)
  {
  }

  ghost predicate WorldRun(cfg: Config, worlds: seq<World>, changes: seq<Change>) {
    && |worlds| == |changes| + 1 && InitialWorld(worlds[0])
    && forall i: nat :: i < |changes| ==> WorldNextAt(cfg, worlds, changes, i)
  }

  ghost predicate WorldNextAt(cfg: Config, worlds: seq<World>, changes: seq<Change>, i: nat)
    requires i < |changes| && |worlds| == |changes| + 1
  {
    WorldNext(cfg, worlds[i], changes[i], worlds[i + 1])
  }

  lemma RunStepKeepsInv(cfg: Config, worlds: seq<World>, changes: seq<Change>, i: nat)
    requires WorldRun(cfg, worlds, changes) && i < |changes| && WorldInv(worlds[i])
    ensures WorldInv(worlds[i + 1])
  {
    assert WorldNextAt(cfg, worlds, changes, i);
    WorldNextKeepsInv(cfg, worlds[i], changes[i], worlds[i + 1]);
  }

  /** In every state of every run, across spec edits, node changes, failures and mode switches: the
      recorded selection is sorted and duplicate-free, and of size Replicas once the spec is observed
      in replica mode; and the stored statuses never run ahead of the specs. */
  lemma {:induction false} SelectionOverRuns(cfg: Config, worlds: seq<World>, changes: seq<Change>, i: nat)
    requires WorldRun(cfg, worlds, changes) && i < |worlds|
    ensures WorldInv(worlds[i])
  {
    if i > 0 {
      SelectionOverRuns(cfg, worlds, changes, i - 1);
      RunStepKeepsInv(cfg, worlds, changes, i - 1);
    } else {
      InitialInv(worlds[0]);
    }
  }

  // ---- availability is backed by an observation ----------------------------------------------

  /** In this change the node's controller read exactly this spec and saw all of its images. */
  predicate SawAll(c: Change, n: string, spec: SetSpec) {
    c.ControllerWrote? && c.node == n && c.read.spec == spec && ToSet(spec.images) <= c.present
  }

  ghost predicate Observed(changes: seq<Change>, i: nat, n: string, spec: SetSpec)
    requires i <= |changes|
  {
    exists k: nat :: k < i && SawAll(changes[k], n, spec)
  }

  predicate UpToDate(o: NodeImageSet) {
    o.status.observedGeneration == o.generation && ConditionTrue(o.status.conditions, IMAGE_AVAILABLE)
  }

  /** A write never makes a set up to date that was not, nor changes the spec of one that stays so. */
  lemma WriteBringsNothingUpToDate(cfg: Config, p: ImagePrefetch, sel: seq<string>, pre: OwnedSets, post: OwnedSets,
                                   k: nat, n: string)
    requires ConsistentStore(pre) && Wrote(cfg, p, sel, pre, post, k) && n in post && UpToDate(post[n])
    ensures n in pre && UpToDate(pre[n]) && post[n].spec == pre[n].spec
  {
    if n in sel {
      var i :| 0 <= i < |sel| && sel[i] == n;
      if i < k {
        assert post[n] == Upsert(pre, Desired(cfg, p, sel, i))[n];
        if n in pre { assert Consistent(pre[n]); }
      }
    }
  }

  lemma ReconcileBringsNothingUpToDate(cfg: Config, w: World, v: World, r: Report, n: string)
    requires WorldInv(w) && ReconcileStep(cfg, w, v, r) && n in v.sets && UpToDate(v.sets[n])
    ensures n in w.sets && UpToDate(w.sets[n]) && v.sets[n].spec == w.sets[n].spec
  {
    if !r.SelectionFailed? {
      var out := if r.RolloutRefused? then Refused else r.out;
      PickedShape(w, r.sel);
      var k := StepEffect(cfg, w.p, r.sel, w.sets, v.sets, out);
      WriteBringsNothingUpToDate(cfg, w.p, r.sel, w.sets, v.sets, k, n);
    }
  }

  /** Wherever a set is up to date and available, its controller has seen all images of its spec. */
  lemma {:induction false} AvailabilityIsObserved(cfg: Config, worlds: seq<World>, changes: seq<Change>, i: nat,
                                                  n: string)
    requires WorldRun(cfg, worlds, changes) && i < |worlds| && n in worlds[i].sets && UpToDate(worlds[i].sets[n])
    ensures Observed(changes, i, n, worlds[i].sets[n].spec)
  {
    assert i > 0;
    var w, v, c := worlds[i - 1], worlds[i], changes[i - 1];
    assert WorldNextAt(cfg, worlds, changes, i - 1);
    SelectionOverRuns(cfg, worlds, changes, i - 1);
    if c.ControllerWrote? && c.node == n {
      assert SawAll(changes[i - 1], n, v.sets[n].spec);
    } else {
      if c.Reconciliation? { ReconcileBringsNothingUpToDate(cfg, w, v, c.report, n); }
      AvailabilityIsObserved(cfg, worlds, changes, i - 1, n);
      var k: nat :| k < i - 1 && SawAll(changes[k], n, w.sets[n].spec);
    }
  }

  /** At any point of any run a reconciliation writes Ready if and only if its rollout completed and
      every selected node has a counted available set; then every selected node is a target, its set
      carries the desired spec, its controller has seen all images of that spec on the node, and no
      failure is reported. */
  lemma ReadyOverRuns(cfg: Config, worlds: seq<World>, changes: seq<Change>, i: nat)
    requires WorldRun(cfg, worlds, changes) && i < |changes|
    requires changes[i].Reconciliation? && changes[i].report.Settled?
    ensures var w, v, r := worlds[i], worlds[i + 1], changes[i].report;
            var ready := ConditionTrue(v.p.status.conditions, READY);
            && (ready <==>
                  r.out == Completed &&
                  forall i :: 0 <= i < |r.sel| ==>
                    && r.sel[i] in v.sets && v.sets[r.sel[i]].spec.prefetchGeneration == w.p.generation
                    && v.sets[r.sel[i]].status.observedGeneration == v.sets[r.sel[i]].generation
                    && IMAGE_AVAILABLE in v.sets[r.sel[i]].status.conditions
                    && v.sets[r.sel[i]].status.conditions[IMAGE_AVAILABLE])
            && (ready ==>
                  && v.p.status.failedNodes == 0 && AllServed(cfg, w, v.sets, r.sel)
                  && forall j :: 0 <= j < |r.sel| ==> Observed(changes, i + 1, r.sel[j], Desired(cfg, w.p, r.sel, j)))
  {
    SelectionOverRuns(cfg, worlds, changes, i);
    assert WorldNextAt(cfg, worlds, changes, i);
    ReadyIsSound(cfg, worlds[i], worlds[i + 1], changes[i].report);
    if ConditionTrue(worlds[i + 1].p.status.conditions, READY) {
      ServedIsObserved(cfg, worlds, changes, i, changes[i].report.sel);
    }
  }

  lemma ServedIsObserved(cfg: Config, worlds: seq<World>, changes: seq<Change>, i: nat, sel: seq<string>)
    requires WorldRun(cfg, worlds, changes) && i < |changes| && AllServed(cfg, worlds[i], worlds[i + 1].sets, sel)
    ensures forall j :: 0 <= j < |sel| ==> Observed(changes, i + 1, sel[j], Desired(cfg, worlds[i].p, sel, j))
  {
    forall j | 0 <= j < |sel| ensures Observed(changes, i + 1, sel[j], Desired(cfg, worlds[i].p, sel, j)) {
      AvailabilityIsObserved(cfg, worlds, changes, i + 1, sel[j]);
    }
  }
}
