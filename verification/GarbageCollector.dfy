/** Removing the NodeImageSets whose node is gone, while nodes and sets keep arriving. */
module GarbageCollector {
  import opened Basics
  import opened Cluster
  import opened ApiServer

  /** Every NodeImageSet in the cluster, by its own name. */
  type Store = map<string, NodeImageSet>

  /** Removing our finalizer; an object already marked for deletion disappears with its last one. */
  function WithoutFinalizer(sets: Store, name: string): Store {
    if name !in sets || SET_FINALIZER !in sets[name].finalizers then sets
    else
      var o := sets[name].(finalizers := sets[name].finalizers - {SET_FINALIZER});
      if o.deleting && o.finalizers == {} then sets - {name} else sets[name := o]
  }

  /** The fate of one collected set: gone, or held by the finalizers of others and marked. */
  function Collected(o: NodeImageSet): Option<NodeImageSet> {
    var rest := o.finalizers - {SET_FINALIZER};
    if rest == {} then None else Some(Marked(o.(finalizers := rest)))
  }

  ghost predicate CollectedAll(pre: Store, post: Store, names: set<string>) {
    && post.Keys <= pre.Keys
    && (forall n :: n in pre && n !in names ==> n in post && post[n] == pre[n])
    && (forall n :: n in pre && n in names ==>
          if Collected(pre[n]).None? then n !in post else n in post && post[n] == Collected(pre[n]).value)
  }

  lemma CollectedOne(sets: Store, name: string)
    ensures CollectedAll(sets, DeleteAll(WithoutFinalizer(sets, name), {name}), {name})
  {
  }

  lemma CollectedMore(pre: Store, mid: Store, post: Store, names: set<string>, name: string)
    requires CollectedAll(pre, mid, names) && name !in names && CollectedAll(mid, post, {name})
    ensures CollectedAll(pre, post, names + {name})
  {
  }

  /** What the rest of the cluster adds between the two lists. */
  datatype Arrivals = Arrivals(nodes: set<string>, sets: Store)

  class ClusterStore {
    var nodes: set<string>
    var sets: Store
    /** Requests answered before the server refuses one. */
    var credit: nat

    constructor (nodes: set<string>, sets: Store, credit: nat)
      ensures this.nodes == nodes && this.sets == sets && this.credit == credit
    {
      this.nodes, this.sets, this.credit := nodes, sets, credit;
    }

    method Admit() returns (ok: bool)
      modifies this`credit
      ensures old(credit) > 0 ==> ok
      ensures credit <= old(credit)
      ensures ok ==> old(credit) == credit + 1
    {
      ok := credit > 0;
      if ok { credit := credit - 1; }
    }

    /** Nodes and sets arrive; nothing existing is changed. */
    method Arrive(a: Arrivals)
      modifies this`nodes, this`sets
      ensures nodes == old(nodes) + a.nodes && sets == a.sets + old(sets)
    {
      nodes, sets := nodes + a.nodes, a.sets + sets;
    }
  }

  method ListNames(api: ClusterStore) returns (names: Option<seq<string>>)
    modifies api`credit
    ensures names.Some? ==> ToSet(names.value) == api.sets.Keys && Distinct(names.value)
    ensures names.None? ==> old(api.credit) == 0
    ensures api.credit <= old(api.credit) && (names.Some? ==> old(api.credit) == api.credit + 1)
  {
    var ok := api.Admit();
    if !ok { return None; }
    var found: seq<string> := [];
    var left := api.sets.Keys;
    while left != {}
      invariant left <= api.sets.Keys && Distinct(found)
      invariant ToSet(found) == api.sets.Keys - left
      decreases left
    {
      var n :| n in left;
      assert n !in ToSet(found) && ToSet(found + [n]) == ToSet(found) + {n};
      found, left := found + [n], left - {n};
    }
    return Some(found);
  }

  method DeleteNodeImageSet(api: ClusterStore, name: string) returns (ok: bool)
    modifies api`sets, api`credit
    ensures ok ==> CollectedAll(old(api.sets), api.sets, {name})
    ensures !ok ==> api.sets == old(api.sets) || api.sets == WithoutFinalizer(old(api.sets), name)
    ensures old(api.credit) >= 3 ==> ok && api.credit >= old(api.credit) - 3
  {
    CollectedOne(api.sets, name);
    ok := api.Admit();
    if !ok { return; }
    if name in api.sets && SET_FINALIZER in api.sets[name].finalizers {
      ok := api.Admit();
      if !ok { return; }
      api.sets := WithoutFinalizer(api.sets, name);
    }
    ok := api.Admit();
    if !ok { return; }
    api.sets := DeleteAll(api.sets, {name});
  }

  /** The listed sets whose node is not among the nodes listed afterwards. */
  function Stale(nodeOf: map<string, string>, nodeNames: set<string>): set<string> {
    set n | n in nodeOf && nodeOf[n] !in nodeNames
  }

  ghost predicate SparesOthers(pre: Store, post: Store, names: set<string>) {
    forall n :: n in pre && n !in names ==> n in post && post[n] == pre[n]
  }

  lemma CollectedSpares(pre: Store, post: Store, names: set<string>, more: set<string>)
    requires CollectedAll(pre, post, names) && names <= more
    ensures SparesOthers(pre, post, more)
  {
  }

  method CollectOne(api: ClusterStore, name: string, ghost pre: Store, ghost done: set<string>) returns (ok: bool)
    requires CollectedAll(pre, api.sets, done) && name !in done
    modifies api`sets, api`credit
    ensures if ok then CollectedAll(pre, api.sets, done + {name}) else SparesOthers(pre, api.sets, done + {name})
    ensures old(api.credit) >= 3 ==> ok && api.credit >= old(api.credit) - 3
  {
    ghost var before := api.sets;
    ok := DeleteNodeImageSet(api, name);
    if ok { CollectedMore(pre, before, api.sets, done, name); }
  }

  lemma OneMore(names: seq<string>, i: nat, stale: set<string>)
    requires Distinct(names) && i < |names|
    ensures names[i] !in ToSet(names[..i])
    ensures ToSet(names[..i + 1]) * stale == ToSet(names[..i]) * stale + if names[i] in stale then {names[i]} else {}
  {
    PrefixMembers(names, i);
    ToSetExtend(names, i);
  }

  method CollectListed(api: ClusterStore, names: seq<string>, nodeOf: map<string, string>,
                       nodeNames: set<string>) returns (ok: bool)
    requires Distinct(names) && ToSet(names) == nodeOf.Keys
    modifies api`sets, api`credit
    ensures SparesOthers(old(api.sets), api.sets, Stale(nodeOf, nodeNames))
    ensures ok ==> CollectedAll(old(api.sets), api.sets, Stale(nodeOf, nodeNames))
    ensures old(api.credit) >= 3 * |names| ==> ok
  {
    ghost var pre, stale := api.sets, Stale(nodeOf, nodeNames);
    for i := 0 to |names|
      invariant CollectedAll(pre, api.sets, ToSet(names[..i]) * stale)
      invariant old(api.credit) >= 3 * |names| ==> api.credit >= 3 * (|names| - i)
    {
      OneMore(names, i, stale);
      assert names[i] in ToSet(names);
      if nodeOf[names[i]] in nodeNames { continue; }
      ok := CollectOne(api, names[i], pre, ToSet(names[..i]) * stale);
      if !ok { return; }
    }
    assert names[..|names|] == names;
    assert ToSet(names) * stale == stale;
    CollectedSpares(pre, api.sets, stale, stale);
    return true;
  }

  function StaleSets(sets: Store, nodes: set<string>): set<string> {
    set n | n in sets && sets[n].spec.nodeName !in nodes
  }

  function NodeOf(sets: Store): map<string, string> {
    map n | n in sets :: sets[n].spec.nodeName
  }

  lemma ArrivalsSpared(pre: Store, arrived: Store, post: Store, stale: set<string>)
    requires SparesOthers(arrived + pre, post, stale) && stale <= pre.Keys
    ensures SparesOthers(pre, post, stale) && SparesOthers(arrived, post, pre.Keys)
  {
  }

  /** Lists the nodes, after what arrived since the sets were listed, and collects what is stale. */
  method CollectAfterArrivals(api: ClusterStore, names: seq<string>, nodeOf: map<string, string>) returns (ok: bool)
    requires Distinct(names) && ToSet(names) == nodeOf.Keys
    modifies api`sets, api`credit
    ensures SparesOthers(old(api.sets), api.sets, Stale(nodeOf, api.nodes))
    ensures ok ==> CollectedAll(old(api.sets), api.sets, Stale(nodeOf, api.nodes))
    ensures old(api.credit) >= 1 + 3 * |names| ==> ok
  {
    ok := api.Admit();
    if !ok { return; }
    ok := CollectListed(api, names, nodeOf, api.nodes);
  }

  /** One collection run. Sets are listed before nodes, and `a` is what arrives in between. Whatever
      happens, only listed sets whose node is missing at the second list are touched: a set whose node
      exists by then, and a set that arrived, stays as it is. Without refusals all of them are collected. */
  method RemoveStaleNodeImageSets(api: ClusterStore, a: Arrivals) returns (ok: bool)
    modifies api
    ensures ok ==> api.nodes == old(api.nodes) + a.nodes
    ensures SparesOthers(old(api.sets), api.sets, StaleSets(old(api.sets), old(api.nodes) + a.nodes))
    ensures ok ==> SparesOthers(a.sets, api.sets, old(api.sets).Keys)
    ensures ok ==> CollectedAll(a.sets + old(api.sets), api.sets, StaleSets(old(api.sets), old(api.nodes) + a.nodes))
    ensures old(api.credit) >= 2 + 3 * |old(api.sets)| ==> ok
  {
    ghost var pre := api.sets;
    var listed := ListNames(api);
    if listed.None? { return false; }
    DistinctCard(listed.value);
    var nodeOf := NodeOf(api.sets);
    api.Arrive(a);
    ok := CollectAfterArrivals(api, listed.value, nodeOf);
    assert Stale(nodeOf, api.nodes) == StaleSets(pre, api.nodes);
    ArrivalsSpared(pre, a.sets, api.sets, StaleSets(pre, api.nodes));
  }

  /** In a run without interference or refusals, exactly the sets whose node is missing go, provided
      no one else's finalizer holds them; all others are unchanged. */
  lemma CollectionIsExact(nodes: set<string>, pre: Store, post: Store)
    requires CollectedAll(pre, post, StaleSets(pre, nodes))
    requires forall n :: n in pre ==> pre[n].finalizers <= {SET_FINALIZER}
    ensures forall n :: n in post <==> n in pre && pre[n].spec.nodeName in nodes
    ensures forall n :: n in post ==> post[n] == pre[n]
  {
    forall n | n in pre && pre[n].spec.nodeName !in nodes ensures n !in post {
      assert pre[n].finalizers - {SET_FINALIZER} == {};
    }
  }
  /** A set whose node is missing but which others hold stays, marked for deletion, with only our
      finalizer gone; marking bumps its generation unless it was marked before. */
  lemma CollectionMarksHeld(nodes: set<string>, pre: Store, post: Store, n: string)
    requires CollectedAll(pre, post, StaleSets(pre, nodes))
    requires n in pre && pre[n].spec.nodeName !in nodes && exists f :: f in pre[n].finalizers && f != SET_FINALIZER
    ensures n in post && post[n].deleting && post[n].spec == pre[n].spec && post[n].status == pre[n].status
    ensures post[n].finalizers == pre[n].finalizers - {SET_FINALIZER}
    ensures post[n].generation == if pre[n].deleting then pre[n].generation else pre[n].generation + 1
  {
    var f :| f in pre[n].finalizers && f != SET_FINALIZER;
    assert f in pre[n].finalizers - {SET_FINALIZER};
  }
}
