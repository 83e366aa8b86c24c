/** The API server as the ImagePrefetch controller sees it: a consistent store of nodes, of one
    ImagePrefetch and of the NodeImageSets it owns. */
module ApiServer {
  import opened Basics
  import opened Cluster
  import opened Selection

  // ---- what one request does to the stored sets ---------------------------------------------

  /** A write that changes the spec bumps the generation and leaves the status alone. */
  function Rewrite(o: NodeImageSet, spec: SetSpec): NodeImageSet {
    if o.spec == spec then o else o.(spec := spec, generation := o.generation + 1)
  }

  function Upsert(sets: OwnedSets, spec: SetSpec): OwnedSets {
    sets[spec.nodeName :=
      if spec.nodeName in sets then Rewrite(sets[spec.nodeName], spec)
      else NodeImageSet(spec, 1, NO_STATUS, {}, false)]
  }

  /** Marking an object for deletion bumps its generation, once. */
  function Marked(o: NodeImageSet): NodeImageSet {
    if o.deleting then o else o.(deleting := true, generation := o.generation + 1)
  }

  /** Deleting an object held by a finalizer only marks it. */
  function DeleteAll(sets: OwnedSets, names: set<string>): OwnedSets {
    map n | n in sets && (n !in names || sets[n].finalizers != {}) ::
      if n in names then Marked(sets[n]) else sets[n]
  }

  /** A list answer: every stored set exactly once, in some order. */
  ghost predicate Enumerates(items: seq<NodeImageSet>, sets: OwnedSets) {
    && (forall i :: 0 <= i < |items| ==> items[i].spec.nodeName in sets && sets[items[i].spec.nodeName] == items[i])
    && (forall i, j :: 0 <= i < j < |items| ==> items[i].spec.nodeName != items[j].spec.nodeName)
    && (forall n :: n in sets ==> sets[n] in items)
  }

  function CountIf(items: seq<NodeImageSet>, p: NodeImageSet -> bool): nat {
    if items == [] then 0 else CountIf(items[..|items| - 1], p) + if p(items[|items| - 1]) then 1 else 0
  }

  /** The nodes whose owned set passes a test. */
  function Where(sets: OwnedSets, p: NodeImageSet -> bool): set<string> {
    set n | n in sets && p(sets[n])
  }

  function NamesIf(items: seq<NodeImageSet>, p: NodeImageSet -> bool): set<string> {
    set i | 0 <= i < |items| && p(items[i]) :: items[i].spec.nodeName
  }

  lemma NamesIfAppend(items: seq<NodeImageSet>, last: NodeImageSet, p: NodeImageSet -> bool)
    ensures NamesIf(items + [last], p) == NamesIf(items, p) + if p(last) then {last.spec.nodeName} else {}
  {
    var all := items + [last];
    forall n | n in NamesIf(items, p) ensures n in NamesIf(all, p) {
      var i :| 0 <= i < |items| && p(items[i]) && items[i].spec.nodeName == n;
      assert p(all[i]) && all[i].spec.nodeName == n;
    }
    if p(last) {
      assert p(all[|items|]) && all[|items|].spec.nodeName in NamesIf(all, p);
    }
  }

  lemma {:induction false} CountIsCard(items: seq<NodeImageSet>, p: NodeImageSet -> bool)
    requires forall i, j :: 0 <= i < j < |items| ==> items[i].spec.nodeName != items[j].spec.nodeName
    ensures CountIf(items, p) == |NamesIf(items, p)|
  {
    if items == [] {
      assert NamesIf(items, p) == {};
    } else {
      var front, last := items[..|items| - 1], items[|items| - 1];
      CountIsCard(front, p);
      assert items == front + [last];
      NamesIfAppend(front, last, p);
      assert last.spec.nodeName !in NamesIf(front, p);
    }
  }

  /** Counting over a list answer counts the stored sets. */
  lemma CountListed(items: seq<NodeImageSet>, sets: OwnedSets, p: NodeImageSet -> bool)
    requires Enumerates(items, sets) && WellKeyed(sets)
    ensures CountIf(items, p) == |Where(sets, p)|
  {
    CountIsCard(items, p);
    assert NamesIf(items, p) == Where(sets, p) by {
      forall n | n in Where(sets, p) ensures n in NamesIf(items, p) {
        var i :| 0 <= i < |items| && items[i] == sets[n];
        assert items[i].spec.nodeName == n;
      }
    }
  }

  function Any(): NodeImageSet -> bool { o => true }

  lemma {:induction false} CountAny(items: seq<NodeImageSet>)
    ensures CountIf(items, Any()) == |items|
  {
    if items != [] { CountAny(items[..|items| - 1]); }
  }

  lemma ListedSize(items: seq<NodeImageSet>, sets: OwnedSets)
    requires Enumerates(items, sets) && WellKeyed(sets)
    ensures |items| == |sets|
  {
    CountListed(items, sets, Any());
    CountAny(items);
    assert Where(sets, Any()) == sets.Keys;
  }

  /** What is left of a credit after some requests. */
  function Spent(credit: nat, requests: nat): nat {
    if requests <= credit then credit - requests else 0
  }

  // ---- the server --------------------------------------------------------------------------

  class ApiServer {
    var prefetch: ImagePrefetch
    var nodes: seq<Node>
    var sets: OwnedSets
    /** How many requests are answered before the server refuses one; any number is possible. */
    var credit: nat

    constructor (p: ImagePrefetch, nodes: seq<Node>, sets: OwnedSets, credit: nat)
      ensures this.prefetch == p && this.nodes == nodes && this.sets == sets && this.credit == credit
    {
      this.prefetch, this.nodes, this.sets, this.credit := p, nodes, sets, credit;
    }

    method Admit() returns (ok: bool)
      modifies this`credit
      ensures ok == (old(credit) > 0) && credit == Spent(old(credit), 1)
    {
      ok := credit > 0;
      if ok { credit := credit - 1; }
    }

    method ListNodes(selector: LabelSelector) returns (res: Option<seq<Node>>)
      modifies this`credit
      ensures res.Some? ==> res.value == MatchingNodes(selector, nodes)
      ensures res.Some? == (old(credit) > 0) && credit == Spent(old(credit), 1)
    {
      var ok := Admit();
      if !ok { return None; }
      var found: seq<Node> := [];
      for i := 0 to |nodes|
        invariant found == MatchingNodes(selector, nodes[..i])
      {
        assert nodes[..i + 1][..i] == nodes[..i];
        if Selects(selector, nodes[i]) { found := found + [nodes[i]]; }
      }
      assert nodes[..|nodes|] == nodes;
      return Some(found);
    }

    method ListSets() returns (res: Option<seq<NodeImageSet>>)
      requires WellKeyed(sets)
      modifies this`credit
      ensures res.Some? ==> Enumerates(res.value, sets)
      ensures res.Some? == (old(credit) > 0) && credit == Spent(old(credit), 1)
    {
      var ok := Admit();
      if !ok { return None; }
      var items: seq<NodeImageSet> := [];
      var left := sets.Keys;
      while left != {}
        invariant left <= sets.Keys
        invariant forall i :: 0 <= i < |items| ==>
                    items[i].spec.nodeName in sets.Keys - left && sets[items[i].spec.nodeName] == items[i]
        invariant forall i, j :: 0 <= i < j < |items| ==> items[i].spec.nodeName != items[j].spec.nodeName
        invariant forall n :: n in sets && n !in left ==> sets[n] in items
        decreases left
      {
        var n :| n in left;
        items := items + [sets[n]];
        left := left - {n};
      }
      return Some(items);
    }

    method ApplySet(spec: SetSpec) returns (ok: bool)
      modifies this`sets, this`credit
      ensures sets == if ok then Upsert(old(sets), spec) else old(sets)
      ensures ok == (old(credit) > 0) && credit == Spent(old(credit), 1)
    {
      ok := Admit();
      if ok { sets := Upsert(sets, spec); }
    }

    /** Deletes one set; a set that is already gone counts as deleted. */
    method DeleteSet(name: string) returns (ok: bool)
      modifies this`sets, this`credit
      ensures sets == if ok then DeleteAll(old(sets), {name}) else old(sets)
      ensures ok == (old(credit) > 0) && credit == Spent(old(credit), 1)
    {
      ok := Admit();
      if !ok { return; }
      if name !in sets {
        assert DeleteAll(sets, {name}) == sets;
      } else if sets[name].finalizers != {} {
        sets := sets[name := Marked(sets[name])];
        assert sets == DeleteAll(old(sets), {name});
      } else {
        sets := sets - {name};
        assert sets == DeleteAll(old(sets), {name});
      }
    }

    method ApplyPrefetchStatus(status: PrefetchStatus) returns (ok: bool)
      modifies this`prefetch, this`credit
      ensures prefetch == if ok then old(prefetch).(status := status) else old(prefetch)
      ensures ok == (old(credit) > 0) && credit == Spent(old(credit), 1)
    {
      ok := Admit();
      if ok { prefetch := prefetch.(status := status); }
    }
  }
}
