/** Rolling an ImagePrefetch out: one NodeImageSet per selected node, in bounded batches. */
module Rollout {
  import opened Basics
  import opened Cluster
  import opened ApiServer

  datatype Config = Config(imagePullNodeLimit: int, maxConcurrent: int)

  /** How a rollout step ended: all nodes processed and leftovers deleted, stopped at the batch
      limit, or cut short by a refused request. */
  datatype Outcome = Completed | Stopped | Refused

  // ---- specification -----------------------------------------------------------------------

  /** The gate's readiness test. It compares counts and the ImagePrefetch generation only: the
      set's own observed generation plays no part. */
  predicate GateReady(o: NodeImageSet, generation: int) {
    && ConditionTrue(o.status.conditions, IMAGE_AVAILABLE)
    && o.spec.prefetchGeneration == generation
    && |o.spec.images| == |o.status.reports|
  }

  function GateTest(generation: int): NodeImageSet -> bool { o => GateReady(o, generation) }

  function ReadySets(sets: OwnedSets, generation: int): set<string> {
    Where(sets, GateTest(generation))
  }

  /** One batch beyond the sets that are ready, or everything once enough are. */
  function Gate(cfg: Config, ready: int, desired: int): int {
    if ready < desired then ready + cfg.maxConcurrent else desired
  }

  function GateOf(cfg: Config, p: ImagePrefetch, sel: seq<string>, sets: OwnedSets): int {
    Gate(cfg, |ReadySets(sets, p.generation)|, |sel|)
  }

  /** How many selected nodes a step may process. */
  function Batch(cfg: Config, p: ImagePrefetch, sel: seq<string>, sets: OwnedSets): (m: nat)
    ensures m <= |sel|
  {
    Max(0, Min(GateOf(cfg, p, sel, sets), |sel|))
  }

  /** Only the first nodes of the list may fall back to the upstream registry. */
  function PolicyAt(cfg: Config, i: int): RegistryPolicy {
    if i < cfg.imagePullNodeLimit then Default else MirrorOnly
  }

  function Desired(cfg: Config, p: ImagePrefetch, sel: seq<string>, i: nat): SetSpec
    requires i < |sel|
  {
    SetSpec(p.spec.images, PolicyAt(cfg, i), sel[i], p.spec.secrets, p.generation)
  }

  function ApplyFirst(cfg: Config, p: ImagePrefetch, sel: seq<string>, k: nat, sets: OwnedSets): OwnedSets
    requires k <= |sel|
  {
    if k == 0 then sets
    else Upsert(ApplyFirst(cfg, p, sel, k - 1, sets), Desired(cfg, p, sel, k - 1))
  }

  function Leftover(sets: OwnedSets, sel: seq<string>): set<string> {
    sets.Keys - ToSet(sel)
  }

  /** How many requests a step makes when none is refused: one list and one write per node, then, when
      it gets to the leftovers, another list and one deletion each. */
  function Requests(cfg: Config, p: ImagePrefetch, sel: seq<string>, sets: OwnedSets): nat {
    1 + Batch(cfg, p, sel, sets) + if GateOf(cfg, p, sel, sets) < |sel| then 0 else 1 + |Leftover(sets, sel)|
  }

  ghost predicate RolloutStep(cfg: Config, p: ImagePrefetch, sel: seq<string>, pre: OwnedSets, post: OwnedSets,
                              out: Outcome) {
    var m := Batch(cfg, p, sel, pre);
    match out
    case Stopped => GateOf(cfg, p, sel, pre) < |sel| && post == ApplyFirst(cfg, p, sel, m, pre)
    case Completed =>
      m == |sel| && var mid := ApplyFirst(cfg, p, sel, m, pre); post == DeleteAll(mid, Leftover(mid, sel))
    case Refused => exists k: nat, gone: set<string> :: CutShort(cfg, p, sel, pre, post, k, gone)
  }

  /** A refused request leaves a prefix of the writes, and deletions only after all of them. */
  ghost predicate CutShort(cfg: Config, p: ImagePrefetch, sel: seq<string>, pre: OwnedSets, post: OwnedSets,
                           k: nat, gone: set<string>) {
    && k <= Batch(cfg, p, sel, pre)
    && (gone != {} ==> k == |sel|)
    && var mid := ApplyFirst(cfg, p, sel, k, pre);
       gone <= Leftover(mid, sel) && post == DeleteAll(mid, gone)
  }

  // ---- pointwise view ----------------------------------------------------------------------

  predicate Among(sel: seq<string>, k: nat, n: string)
    requires k <= |sel|
  {
    exists i :: 0 <= i < k && sel[i] == n
  }

  /** After k writes: the first k nodes carry the desired spec, every other set is untouched. */
  lemma {:induction false} ApplyFirstAt(cfg: Config, p: ImagePrefetch, sel: seq<string>, k: nat, sets: OwnedSets)
    requires k <= |sel| && Distinct(sel)
    ensures var post := ApplyFirst(cfg, p, sel, k, sets);
            && (forall n :: n in post <==> n in sets || Among(sel, k, n))
            && (forall n :: n in sets && !Among(sel, k, n) ==> post[n] == sets[n])
            && (forall i :: 0 <= i < k ==> post[sel[i]] == Upsert(sets, Desired(cfg, p, sel, i))[sel[i]])
  {
    if k > 0 {
      ApplyFirstAt(cfg, p, sel, k - 1, sets);
      var before, last := ApplyFirst(cfg, p, sel, k - 1, sets), sel[k - 1];
      var after := ApplyFirst(cfg, p, sel, k, sets);
      assert after == before[last := Upsert(before, Desired(cfg, p, sel, k - 1))[last]];
      assert !Among(sel, k - 1, last);
      forall n ensures Among(sel, k, n) <==> Among(sel, k - 1, n) || n == last { }
      forall i | 0 <= i < k - 1 ensures after[sel[i]] == Upsert(sets, Desired(cfg, p, sel, i))[sel[i]] {
        assert Among(sel, k - 1, sel[i]) && sel[i] != last;
      }
    }
  }

  lemma ApplyKeepsKeys(cfg: Config, p: ImagePrefetch, sel: seq<string>, k: nat, sets: OwnedSets)
    requires k <= |sel| && WellKeyed(sets)
    ensures WellKeyed(ApplyFirst(cfg, p, sel, k, sets))
  {
  }

  lemma DeleteOneMore(sets: OwnedSets, names: set<string>, n: string)
    ensures DeleteAll(DeleteAll(sets, names), {n}) == DeleteAll(sets, names + {n})
  {
    var a, b := DeleteAll(DeleteAll(sets, names), {n}), DeleteAll(sets, names + {n});
    assert a.Keys == b.Keys;
    forall x | x in a ensures a[x] == b[x] { }
  }

  // ---- the loops ---------------------------------------------------------------------------

  method GetMaxNodeImageSetsToCreate(cfg: Config, items: seq<NodeImageSet>, desired: int, generation: int)
    returns (max: int)
    ensures max == Gate(cfg, CountIf(items, GateTest(generation)), desired)
  {
    var readyCount := 0;
    for i := 0 to |items|
      invariant readyCount == CountIf(items[..i], GateTest(generation))
    {
      assert items[..i + 1][..i] == items[..i];
      if GateReady(items[i], generation) { readyCount := readyCount + 1; }
    }
    assert items[..|items|] == items;
    if readyCount < desired {
      return readyCount + cfg.maxConcurrent;
    }
    return desired;
  }

  lemma CutShortAt(cfg: Config, p: ImagePrefetch, sel: seq<string>, pre: OwnedSets, k: nat)
    requires k <= Batch(cfg, p, sel, pre)
    ensures RolloutStep(cfg, p, sel, pre, ApplyFirst(cfg, p, sel, k, pre), Refused)
  {
    var post := ApplyFirst(cfg, p, sel, k, pre);
    assert DeleteAll(post, {}) == post;
    assert CutShort(cfg, p, sel, pre, post, k, {});
  }

  /** Server-side apply of the set of one selected node. */
  method ApplyNode(api: ApiServer, cfg: Config, p: ImagePrefetch, sel: seq<string>, i: nat, ghost pre: OwnedSets)
    returns (ok: bool)
    requires i < |sel| && api.sets == ApplyFirst(cfg, p, sel, i, pre)
    modifies api`sets, api`credit
    ensures api.sets == ApplyFirst(cfg, p, sel, if ok then i + 1 else i, pre)
    ensures ok == (old(api.credit) > 0) && api.credit == Spent(old(api.credit), 1)
  {
    var registryPolicy := MirrorOnly;
    if i < cfg.imagePullNodeLimit { registryPolicy := Default; }
    ok := api.ApplySet(SetSpec(p.spec.images, registryPolicy, sel[i], p.spec.secrets, p.generation));
  }

  method ReadGate(api: ApiServer, cfg: Config, p: ImagePrefetch, sel: seq<string>) returns (max: Option<int>)
    requires WellKeyed(api.sets)
    modifies api`credit
    ensures max.Some? ==> max.value == GateOf(cfg, p, sel, api.sets)
    ensures max.Some? == (old(api.credit) > 0) && api.credit == Spent(old(api.credit), 1)
  {
    var listed := api.ListSets();
    if listed.None? {
      return None;
    }
    CountListed(listed.value, api.sets, GateTest(p.generation));
    var limit := GetMaxNodeImageSetsToCreate(cfg, listed.value, |sel|, p.generation);
    return Some(limit);
  }

  lemma StepKeepsKeys(cfg: Config, p: ImagePrefetch, sel: seq<string>, pre: OwnedSets, post: OwnedSets, out: Outcome)
    requires WellKeyed(pre) && RolloutStep(cfg, p, sel, pre, post, out)
    ensures WellKeyed(post)
  {
    match out
    case Stopped => ApplyKeepsKeys(cfg, p, sel, Batch(cfg, p, sel, pre), pre);
    case Completed => ApplyKeepsKeys(cfg, p, sel, |sel|, pre);
    case Refused =>
      var k: nat, gone: set<string> :| CutShort(cfg, p, sel, pre, post, k, gone);
      ApplyKeepsKeys(cfg, p, sel, k, pre);
  }

  lemma StoppedAt(cfg: Config, p: ImagePrefetch, sel: seq<string>, pre: OwnedSets, i: nat)
    requires i < |sel| && i <= Batch(cfg, p, sel, pre) && i >= GateOf(cfg, p, sel, pre)
    ensures RolloutStep(cfg, p, sel, pre, ApplyFirst(cfg, p, sel, i, pre), Stopped)
  {
  }

  /** Writes the selected nodes up to the limit. It ends before the first node beyond it, at a refused
      write, or with all nodes done, and says which nodes it got to. */
  method ApplyNodes(api: ApiServer, cfg: Config, p: ImagePrefetch, sel: seq<string>, limit: int, ghost pre: OwnedSets)
    returns (out: Outcome, selectNodes: set<string>)
    requires api.sets == pre && limit == GateOf(cfg, p, sel, pre)
    modifies api`sets, api`credit
    ensures out == Refused <==> old(api.credit) < Batch(cfg, p, sel, pre)
    ensures api.credit == Spent(old(api.credit), Batch(cfg, p, sel, pre))
    ensures out == Completed ==>
              limit >= |sel| && api.sets == ApplyFirst(cfg, p, sel, |sel|, pre) && selectNodes == ToSet(sel)
    ensures out != Completed ==> RolloutStep(cfg, p, sel, pre, api.sets, out)
    ensures out == Stopped ==> limit < |sel|
  {
    selectNodes := {};
    for i := 0 to |sel|
      invariant i <= Batch(cfg, p, sel, pre)
      invariant selectNodes == ToSet(sel[..i])
      invariant api.sets == ApplyFirst(cfg, p, sel, i, pre)
      invariant old(api.credit) == api.credit + i
    {
      if i >= limit {
        StoppedAt(cfg, p, sel, pre, i);
        return Stopped, selectNodes;
      }
      ToSetExtend(sel, i);
      selectNodes := selectNodes + {sel[i]};
      var ok := ApplyNode(api, cfg, p, sel, i, pre);
      if !ok {
        CutShortAt(cfg, p, sel, pre, i);
        return Refused, selectNodes;
      }
    }
    assert sel[..|sel|] == sel;
    out := Completed;
  }

  /** Some of the deletions done is a refused step, all of them a completed one. */
  lemma DeletionsDone(cfg: Config, p: ImagePrefetch, sel: seq<string>, pre: OwnedSets, mid: OwnedSets,
                      gone: set<string>)
    requires Batch(cfg, p, sel, pre) == |sel| && Distinct(sel) && mid == ApplyFirst(cfg, p, sel, |sel|, pre)
    requires gone <= Leftover(pre, sel)
    ensures RolloutStep(cfg, p, sel, pre, DeleteAll(mid, gone), Refused)
    ensures gone == Leftover(pre, sel) ==> RolloutStep(cfg, p, sel, pre, DeleteAll(mid, gone), Completed)
  {
    SameLeftover(cfg, p, sel, pre);
    assert CutShort(cfg, p, sel, pre, DeleteAll(mid, gone), |sel|, gone);
  }

  /** Writing selected nodes leaves no more and no fewer leftovers. */
  lemma SameLeftover(cfg: Config, p: ImagePrefetch, sel: seq<string>, pre: OwnedSets)
    requires Distinct(sel)
    ensures Leftover(ApplyFirst(cfg, p, sel, |sel|, pre), sel) == Leftover(pre, sel)
  {
    ApplyFirstAt(cfg, p, sel, |sel|, pre);
    forall n | n !in sel ensures !Among(sel, |sel|, n) { }
  }

  /** Among the listed names, `gone` holds exactly the first j that are not to be kept. */
  ghost predicate GoneUpTo(items: seq<NodeImageSet>, left: set<string>, keep: set<string>, j: nat, gone: set<string>) {
    && gone <= left
    && forall l :: 0 <= l < |items| ==> (items[l].spec.nodeName in gone <==> l < j && items[l].spec.nodeName !in keep)
  }

  lemma OneMoreGone(items: seq<NodeImageSet>, sets: OwnedSets, keep: set<string>, left: set<string>, j: nat,
                    gone: set<string>)
    requires Enumerates(items, sets) && left == sets.Keys - keep
    requires j < |items| && GoneUpTo(items, left, keep, j, gone)
    ensures var name := items[j].spec.nodeName;
            if name in keep then GoneUpTo(items, left, keep, j + 1, gone)
            else GoneUpTo(items, left, keep, j + 1, gone + {name}) && name !in gone && |gone| < |left|
  {
    var name := items[j].spec.nodeName;
    if name !in keep { SubsetCard(gone + {name}, left); }
  }

  lemma AllGone(items: seq<NodeImageSet>, sets: OwnedSets, keep: set<string>, left: set<string>, gone: set<string>)
    requires WellKeyed(sets) && Enumerates(items, sets) && left == sets.Keys - keep
    requires GoneUpTo(items, left, keep, |items|, gone)
    ensures gone == left
  {
    forall n | n in left ensures n in gone {
      var l :| 0 <= l < |items| && items[l] == sets[n];
    }
  }

  /** Deletes the listed sets whose node is not to be kept, until a request is refused. */
  method DeleteListed(api: ApiServer, items: seq<NodeImageSet>, keep: set<string>, ghost left: set<string>)
    returns (ok: bool, ghost gone: set<string>)
    requires WellKeyed(api.sets) && Enumerates(items, api.sets) && left == api.sets.Keys - keep
    modifies api`sets, api`credit
    ensures gone <= left && api.sets == DeleteAll(old(api.sets), gone)
    ensures ok ==> gone == left
    ensures ok <==> old(api.credit) >= |left|
    ensures api.credit == Spent(old(api.credit), |left|)
  {
    ghost var mid := api.sets;
    gone := {};
    assert DeleteAll(mid, {}) == mid;
    for j := 0 to |items|
      invariant GoneUpTo(items, left, keep, j, gone) && api.sets == DeleteAll(mid, gone)
      invariant old(api.credit) == api.credit + |gone|
    {
      var name := items[j].spec.nodeName;
      OneMoreGone(items, mid, keep, left, j, gone);
      if name !in keep {
        ok := api.DeleteSet(name);
        if !ok {
          return;
        }
        DeleteOneMore(mid, gone, name);
        gone := gone + {name};
      }
    }
    AllGone(items, mid, keep, left, gone);
    ok := true;
  }

  /** Lists the sets again and deletes those of nodes that were not selected. */
  method DeleteUnnecessary(api: ApiServer, selectNodes: set<string>, ghost left: set<string>)
    returns (ok: bool, ghost gone: set<string>)
    requires WellKeyed(api.sets) && left == api.sets.Keys - selectNodes
    modifies api`sets, api`credit
    ensures gone <= left && api.sets == DeleteAll(old(api.sets), gone)
    ensures ok ==> gone == left
    ensures ok <==> old(api.credit) >= 1 + |left|
    ensures api.credit == Spent(old(api.credit), 1 + |left|)
  {
    var listed := api.ListSets();
    if listed.None? {
      gone := {};
      assert DeleteAll(api.sets, {}) == api.sets;
      return false, gone;
    }
    ok, gone := DeleteListed(api, listed.value, selectNodes, left);
  }

  method CreateOrUpdateNodeImageSet(api: ApiServer, cfg: Config, p: ImagePrefetch, sel: seq<string>)
    returns (out: Outcome)
    requires WellKeyed(api.sets) && Distinct(sel)
    modifies api`sets, api`credit
    ensures RolloutStep(cfg, p, sel, old(api.sets), api.sets, out)
    ensures out == Refused <==> old(api.credit) < Requests(cfg, p, sel, old(api.sets))
    ensures api.credit == Spent(old(api.credit), Requests(cfg, p, sel, old(api.sets)))
  {
    ghost var pre := api.sets;
    var max := ReadGate(api, cfg, p, sel);
    if max.None? {
      CutShortAt(cfg, p, sel, pre, 0);
      return Refused;
    }
    var selectNodes: set<string>;
    out, selectNodes := ApplyNodes(api, cfg, p, sel, max.value, pre);
    if out == Completed {
      ghost var mid, left := api.sets, Leftover(pre, sel);
      ApplyKeepsKeys(cfg, p, sel, |sel|, pre);
      assert left == mid.Keys - selectNodes by { SameLeftover(cfg, p, sel, pre); }
      var ok, gone := DeleteUnnecessary(api, selectNodes, left);
      DeletionsDone(cfg, p, sel, pre, mid, gone);
      if !ok {
        return Refused;
      }
    }
  }
}
