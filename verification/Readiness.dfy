/** Folding the statuses of the owned sets into the status of the ImagePrefetch. */
module Readiness {
  import opened Basics
  import opened Cluster
  import opened ApiServer

  const READY := "Ready"
  const SETS_CREATED := "NodeImageSetsCreated"
  const NO_PULL_FAILED := "NoImagePullFailed"

  /** A set counts once it is of the current generation and its own controller has seen its spec. */
  predicate IsCounted(o: NodeImageSet, generation: int) {
    && o.spec.prefetchGeneration == generation
    && o.generation == o.status.observedGeneration
    && o.status.conditions != map[]
  }

  function Counted(generation: int): NodeImageSet -> bool {
    (o: NodeImageSet) => IsCounted(o, generation)
  }

  function Serving(generation: int): NodeImageSet -> bool {
    (o: NodeImageSet) => IsCounted(o, generation) && ConditionTrue(o.status.conditions, IMAGE_AVAILABLE)
  }

  function Pulling(generation: int): NodeImageSet -> bool {
    (o: NodeImageSet) => IsCounted(o, generation) && !ConditionTrue(o.status.conditions, IMAGE_AVAILABLE)
  }

  function Failing(generation: int): NodeImageSet -> bool {
    (o: NodeImageSet) => IsCounted(o, generation) && !ConditionTrue(o.status.conditions, DOWNLOAD_SUCCEEDED)
  }

  datatype Tally = Tally(desiredNodes: int, availableNodes: int, pullingNodes: int, pullFailedNodes: int)

  /** The tally of a selection over the stored sets. */
  function TallyOf(sel: seq<string>, sets: OwnedSets, generation: int): Tally {
    Tally(|sel|, |Where(sets, Serving(generation))|, |Where(sets, Pulling(generation))|,
          |Where(sets, Failing(generation))|)
  }

  function StatusFor(p: ImagePrefetch, sel: seq<string>, sets: OwnedSets): PrefetchStatus {
    var t := TallyOf(sel, sets, p.generation);
    PrefetchStatus(
      p.generation,
      map[SETS_CREATED := |sets| == |sel|, READY := t.availableNodes == t.desiredNodes,
          NO_PULL_FAILED := t.pullFailedNodes <= 0],
      t.desiredNodes, t.availableNodes, t.pullingNodes, t.pullFailedNodes, sel)
  }

  // ---- the loops ---------------------------------------------------------------------------

  method CalculateStatus(sel: seq<string>, items: seq<NodeImageSet>, generation: int) returns (t: Tally)
    ensures t == Tally(|sel|, CountIf(items, Serving(generation)), CountIf(items, Pulling(generation)),
                       CountIf(items, Failing(generation)))
  {
    var available, pulling, failed := 0, 0, 0;
    for i := 0 to |items|
      invariant available == CountIf(items[..i], Serving(generation))
      invariant pulling == CountIf(items[..i], Pulling(generation))
      invariant failed == CountIf(items[..i], Failing(generation))
    {
      assert items[..i + 1][..i] == items[..i];
      var o := items[i];
      if o.spec.prefetchGeneration != generation { continue; }
      if o.generation != o.status.observedGeneration { continue; }
      if o.status.conditions == map[] { continue; }
      if ConditionTrue(o.status.conditions, IMAGE_AVAILABLE) { available := available + 1; }
      if !ConditionTrue(o.status.conditions, DOWNLOAD_SUCCEEDED) { failed := failed + 1; }
      if !ConditionTrue(o.status.conditions, IMAGE_AVAILABLE) { pulling := pulling + 1; }
    }
    assert items[..|items|] == items;
    return Tally(|sel|, available, pulling, failed);
  }

  /** Writes the status and says whether to look again later; None when a request was refused. */
  method UpdateStatus(api: ApiServer, p: ImagePrefetch, sel: seq<string>) returns (requeue: Option<bool>)
    requires WellKeyed(api.sets)
    modifies api`prefetch, api`credit
    ensures requeue.None? ==> api.prefetch == old(api.prefetch)
    ensures requeue.Some? ==> api.prefetch == old(api.prefetch).(status := StatusFor(p, sel, api.sets))
    ensures requeue.Some? ==> requeue.value == !ConditionTrue(api.prefetch.status.conditions, READY)
    ensures requeue.Some? <==> old(api.credit) >= 2
    ensures api.credit == Spent(old(api.credit), 2)
  {
    var listed := api.ListSets();
    if listed.None? { return None; }
    var items := listed.value;
    var t := CalculateStatus(sel, items, p.generation);
    CountListed(items, api.sets, Serving(p.generation));
    CountListed(items, api.sets, Pulling(p.generation));
    CountListed(items, api.sets, Failing(p.generation));
    ListedSize(items, api.sets);
    var conditions: map<string, bool> := map[];
    if |items| == |sel| {
      conditions := conditions[SETS_CREATED := true];
    } else {
      conditions := conditions[SETS_CREATED := false];
    }
    var result := true;
    if t.availableNodes == t.desiredNodes {
      conditions := conditions[READY := true];
      result := false;
    } else {
      conditions := conditions[READY := false];
    }
    if t.pullFailedNodes > 0 {
      conditions := conditions[NO_PULL_FAILED := false];
    } else {
      conditions := conditions[NO_PULL_FAILED := true];
    }
    var ok := api.ApplyPrefetchStatus(PrefetchStatus(
      p.generation, conditions, t.desiredNodes, t.availableNodes, t.pullingNodes, t.pullFailedNodes, sel));
    if !ok { return None; }
    return Some(result);
  }

  // ---- conservation ------------------------------------------------------------------------

  /** What every status written by a NodeImageSet controller satisfies: available implies no failure. */
  predicate Honest(o: NodeImageSet) {
    ConditionTrue(o.status.conditions, IMAGE_AVAILABLE) ==> ConditionTrue(o.status.conditions, DOWNLOAD_SUCCEEDED)
  }

  /** Available and pulling nodes are disjoint and make up exactly the counted sets; on honest
      statuses every failing node is a pulling one. */
  lemma TallyConserves(sel: seq<string>, sets: OwnedSets, generation: int)
    ensures var t := TallyOf(sel, sets, generation);
            && t.availableNodes + t.pullingNodes == |Where(sets, Counted(generation))| <= |sets|
            && ((forall n :: n in sets ==> Honest(sets[n])) ==> t.pullFailedNodes <= t.pullingNodes)
  {
    var a, b, c := Where(sets, Serving(generation)), Where(sets, Pulling(generation)), Where(sets, Counted(generation));
    assert a + b == c && a !! b;
    assert |a + b| == |a| + |b|;
    SubsetCard(c, sets.Keys);
    if forall n :: n in sets ==> Honest(sets[n]) {
      SubsetCard(Where(sets, Failing(generation)), b);
    }
  }

  /** A ready tally has at most as many failures as there are counted sets beyond the selection:
      none at all when the owned sets are exactly those of the selected nodes. */
  lemma ReadyBoundsFailures(sel: seq<string>, sets: OwnedSets, generation: int)
    requires forall n :: n in sets ==> Honest(sets[n])
    requires var t := TallyOf(sel, sets, generation); t.availableNodes == t.desiredNodes
    ensures TallyOf(sel, sets, generation).pullFailedNodes <= |Where(sets, Counted(generation))| - |sel|
    ensures |sets| <= |sel| ==> TallyOf(sel, sets, generation).pullFailedNodes == 0
  {
    TallyConserves(sel, sets, generation);
  }

  /** Ready is decided by a balance: as many counted servers outside the selection as selected nodes
      that do not serve. */
  lemma ReadyIsBalance(p: ImagePrefetch, sel: seq<string>, sets: OwnedSets)
    requires Distinct(sel)
    ensures var serving := Where(sets, Serving(p.generation));
            StatusFor(p, sel, sets).conditions[READY] <==> |ToSet(sel) - serving| == |serving - ToSet(sel)|
  {
    var serving := Where(sets, Serving(p.generation));
    DistinctCard(sel);
    SplitCard(ToSet(sel), serving);
    SplitCard(serving, ToSet(sel));
    assert ToSet(sel) * serving == serving * ToSet(sel);
  }
  // ---- on the fields -----------------------------------------------------------------------

  /** The nodes whose set is of the current generation, observed at its latest, with conditions. */
  function ObservedSets(sets: OwnedSets, generation: int): set<string> {
    set n | n in sets && sets[n].spec.prefetchGeneration == generation
      && sets[n].status.observedGeneration == sets[n].generation && |sets[n].status.conditions| > 0
  }

  /** Of these, the ones whose condition of the given kind is True. */
  function ObservedWith(sets: OwnedSets, generation: int, kind: string): set<string> {
    set n | n in ObservedSets(sets, generation)
      && kind in sets[n].status.conditions && sets[n].status.conditions[kind]
  }

  lemma TallyOnFields(sel: seq<string>, sets: OwnedSets, generation: int)
    ensures var counted, available := ObservedSets(sets, generation), ObservedWith(sets, generation, IMAGE_AVAILABLE);
            var succeeded := ObservedWith(sets, generation, DOWNLOAD_SUCCEEDED);
            TallyOf(sel, sets, generation) == Tally(|sel|, |available|, |counted - available|, |counted - succeeded|)
  {
    var counted, available := ObservedSets(sets, generation), ObservedWith(sets, generation, IMAGE_AVAILABLE);
    var succeeded := ObservedWith(sets, generation, DOWNLOAD_SUCCEEDED);
    forall n | n in sets ensures n in counted <==> IsCounted(sets[n], generation) {
      assert |sets[n].status.conditions| > 0 <==> sets[n].status.conditions != map[];
    }
    assert available == Where(sets, Serving(generation));
    assert counted - available == Where(sets, Pulling(generation));
    assert counted - succeeded == Where(sets, Failing(generation));
  }

  lemma ThreeConditions(created: bool, ready: bool, noneFailed: bool)
    ensures var conditions := map[SETS_CREATED := created, READY := ready, NO_PULL_FAILED := noneFailed];
            && conditions.Keys == {SETS_CREATED, READY, NO_PULL_FAILED}
            && conditions[SETS_CREATED] == created && conditions[READY] == ready
                && conditions[NO_PULL_FAILED] == noneFailed
  {
    assert READY[0] != SETS_CREATED[0] && READY[0] != NO_PULL_FAILED[0] && SETS_CREATED[2] != NO_PULL_FAILED[2];
  }

  /** The status written, on the fields of the stored sets: the observed sets of the current generation
      are tallied by availability and success, and the conditions compare the tallies. */
  lemma StatusOnFields(p: ImagePrefetch, sel: seq<string>, sets: OwnedSets)
    ensures var counted, available := ObservedSets(sets, p.generation),
            ObservedWith(sets, p.generation, IMAGE_AVAILABLE);
            var succeeded := ObservedWith(sets, p.generation, DOWNLOAD_SUCCEEDED);
            var status := StatusFor(p, sel, sets);
            && status.observedGeneration == p.generation && status.selectedNodes == sel
            && status.desiredNodes == |sel| && status.pulledNodes == |available|
            && status.pullingNodes == |counted - available| && status.failedNodes == |counted - succeeded|
            && status.conditions.Keys == {SETS_CREATED, READY, NO_PULL_FAILED}
            && (status.conditions[SETS_CREATED] <==> |sets| == |sel|)
            && (status.conditions[READY] <==> |available| == |sel|)
            && (status.conditions[NO_PULL_FAILED] <==> counted <= succeeded)
  {
    var counted, succeeded := ObservedSets(sets, p.generation), ObservedWith(sets, p.generation, DOWNLOAD_SUCCEEDED);
    var t := TallyOf(sel, sets, p.generation);
    TallyOnFields(sel, sets, p.generation);
    ThreeConditions(|sets| == |sel|, t.availableNodes == t.desiredNodes, t.pullFailedNodes <= 0);
    assert counted <= succeeded <==> |counted - succeeded| == 0;
  }
}
